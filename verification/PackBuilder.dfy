/** Splitting a file into blocks and collecting new blocks into packs, with deduplication. */
module PackBuilding {
  import opened Bytes
  import opened PackFormat
  import opened Repository
  import opened RepositorySafety
  import opened Sessions

  // ---- SplitBlocks -----------------------------------------------------------------------------

  function Payloads(entries: seq<Entry>): seq<Bytes> {
    seq(|entries|, i requires 0 <= i < |entries| => entries[i].data)
  }

  /** The i-th 4 MiB block of a stream, the last one as long as it is. */
  function BlockAt(stream: Bytes, i: nat): Bytes
    requires i * BLOCK_SIZE < |stream|
  {
    stream[i * BLOCK_SIZE..if (i + 1) * BLOCK_SIZE <= |stream| then (i + 1) * BLOCK_SIZE else |stream|]
  }

  predicate BlockIs(stream: Bytes, i: nat, x: Bytes) {
    i * BLOCK_SIZE < |stream| && x == BlockAt(stream, i)
  }

  ghost predicate IsBlock(stream: Bytes, x: Bytes) {
    exists i: nat :: BlockIs(stream, i, x)
  }

  /** The entries are the blocks of the stream, in order. */
  ghost predicate BlocksOf(stream: Bytes, entries: seq<Entry>) {
    forall i :: 0 <= i < |entries| ==> BlockIs(stream, i, entries[i].data)
  }

  /** Full blocks, except for a shorter last one; none is empty; each is stored under its own hash. */
  predicate Blocks4MiB(entries: seq<Entry>) {
    && (forall i :: 0 <= i < |entries| ==> WellFormed(entries[i]))
    && (forall i :: 0 <= i < |entries| - 1 ==> |entries[i].data| == BLOCK_SIZE)
  }

  lemma ConcatSnoc(parts: seq<Bytes>, last: Bytes)
    ensures Concat(parts + [last]) == Concat(parts) + last
  {
    assert (parts + [last])[..|parts|] == parts;
  }

  lemma PayloadsSnoc(entries: seq<Entry>, e: Entry)
    ensures Payloads(entries + [e]) == Payloads(entries) + [e.data]
  {
  }

  /** The first `read` bytes of the stream, as the blocks taken so far. */
  ghost predicate Taken(stream: Bytes, entries: seq<Entry>, read: nat) {
    && read <= |stream| && BlocksOf(stream, entries) && Concat(Payloads(entries)) == stream[..read]
    && Blocks4MiB(entries)
  }

  lemma TakeBlock(stream: Bytes, entries: seq<Entry>, read: nat, block: Bytes)
    requires Taken(stream, entries, read) && read == |entries| * BLOCK_SIZE
    requires 0 < |block| <= BLOCK_SIZE && read + |block| <= |stream| && block == stream[read..read + |block|]
    requires |block| == BLOCK_SIZE || read + |block| == |stream|
    requires forall i :: 0 <= i < |entries| ==> |entries[i].data| == BLOCK_SIZE
    ensures Taken(stream, entries + [Entry(Sha256(block), block)], read + |block|)
    ensures stream[..read] + block == stream[..read + |block|]
  {
    assert BlockIs(stream, |entries|, block);
    SplitSlice(stream, read, read + |block|);
    PayloadsSnoc(entries, Entry(Sha256(block), block));
    ConcatSnoc(Payloads(entries), block);
  }

  /** io.ReadFull into the shared buffer. */
  method ReadFull(buffer: array<Byte>, stream: Bytes, read: nat, n: nat)
    requires n <= buffer.Length && read + n <= |stream|
    modifies buffer
    ensures buffer[..n] == stream[read..read + n]
  {
    forall i | 0 <= i < n {
      buffer[i] := stream[read + i];
    }
  }

  /**
    SplitBlocks reads through one reused buffer. The blocks it hands out are copies: they are full 4 MiB blocks
    but for the last, and together they are the stream whose hash it returns.
   */
  method SplitBlocks(stream: Bytes) returns (entries: seq<Entry>, fileHash: Digest)
    ensures Blocks4MiB(entries) && BlocksOf(stream, entries) && Concat(Payloads(entries)) == stream
    ensures fileHash == Sha256(stream)
  {
    var buffer := new Byte[BLOCK_SIZE];
    entries := [];
    assert Concat(Payloads([])) == stream[..0];
    var read: nat := 0;
    var hashed: Bytes := [];
    while true
      invariant Taken(stream, entries, read) && read == |entries| * BLOCK_SIZE && hashed == stream[..read]
      invariant forall i :: 0 <= i < |entries| ==> |entries[i].data| == BLOCK_SIZE
      decreases |stream| - read
    {
      var n := if |stream| - read < BLOCK_SIZE then |stream| - read else BLOCK_SIZE;
      ReadFull(buffer, stream, read, n);
      if n > 0 {
        var block := buffer[..n];
        TakeBlock(stream, entries, read, block);
        entries := entries + [Entry(Sha256(block), block)];
        hashed := hashed + block;
        read := read + n;
      }
      if n < BLOCK_SIZE {
        break;
      }
    }
    assert stream[..read] == stream;
    fileHash := Sha256(hashed);
  }

  // ---- The builder -----------------------------------------------------------------------------

  ghost function Hashes(entries: seq<Entry>): set<Digest> {
    set e | e in entries :: e.hash
  }

  predicate DistinctHashes(entries: seq<Entry>) {
    forall i, j :: 0 <= i < j < |entries| ==> entries[i].hash != entries[j].hash
  }

  /** encodedSize is exact, the pack never outgrows its limit, and `pending` is the set of buffered hashes. */
  ghost predicate Buffered(entries: seq<Entry>, encodedSize: nat, pending: set<Digest>) {
    && encodedSize == PREFIX_SIZE + FOOTER_SIZE + |Frames(entries)| <= MAX_PACK_SIZE
    && (forall e :: e in entries ==> WellFormed(e))
    && DistinctHashes(entries)
    && pending == Hashes(entries)
  }

  /** Each hash that was flushed maps to a block ID that stands for data with that hash. */
  ghost predicate Catalogued(ids: map<Digest, BlockId>, known: map<BlockId, Bytes>) {
    forall h :: h in ids ==> ids[h] in known && Sha256(known[ids[h]]) == h
  }

  function Flatten(packs: seq<seq<Entry>>): seq<Entry> {
    if packs == [] then [] else Flatten(packs[..|packs| - 1]) + packs[|packs| - 1]
  }

  lemma {:induction false} FramesLength(entries: seq<Entry>)
    requires forall e :: e in entries ==> WellFormed(e)
    ensures 37 * |entries| <= |Frames(entries)|
  {
    if entries != [] {
      var init, last := entries[..|entries| - 1], entries[|entries| - 1];
      FramesLength(init);
      assert last in entries;
    }
  }

  /** Nothing the builder buffers is ever rejected by EncodePack. */
  lemma BufferedEncodable(entries: seq<Entry>, encodedSize: nat, pending: set<Digest>)
    requires Buffered(entries, encodedSize, pending)
    ensures Encodable(entries)
  {
    FramesLength(entries);
  }

  lemma FlattenSnoc(packs: seq<seq<Entry>>, last: seq<Entry>)
    ensures Flatten(packs + [last]) == Flatten(packs) + last
    ensures Flatten(packs + [last]) + [] == Flatten(packs) + last
  {
    assert (packs + [last])[..|packs|] == packs;
  }

  lemma LookupEvolves(start: State, s: State, b: BlockId, data: Bytes, t: State)
    requires Evolves(start, s) && LookupStep(s, b, data, t)
    ensures Evolves(start, t)
  {
    EvolvesStep(start, s, Lookup(b, data), t);
  }

  lemma HashesSnoc(entries: seq<Entry>, e: Entry)
    ensures Hashes(entries + [e]) == Hashes(entries) + {e.hash}
  {
  }

  /** Buffering one more block that fits. */
  lemma BufferMore(entries: seq<Entry>, encodedSize: nat, pending: set<Digest>, e: Entry)
    requires Buffered(entries, encodedSize, pending) && WellFormed(e) && e.hash !in pending
    requires encodedSize + 36 + |e.data| <= MAX_PACK_SIZE
    ensures Buffered(entries + [e], encodedSize + 36 + |e.data|, pending + {e.hash})
  {
    FramesSnoc(entries, e);
    HashesSnoc(entries, e);
    forall i | 0 <= i < |entries|
      ensures entries[i].hash != e.hash
    {
      assert entries[i] in entries;
    }
  }

  predicate Extends(known: map<BlockId, Bytes>, more: map<BlockId, Bytes>) {
    forall b :: b in known ==> b in more && more[b] == known[b]
  }

  predicate Assigned(known: map<BlockId, Bytes>, entries: seq<Entry>, newIds: seq<BlockId>) {
    |newIds| == |entries| && forall i :: 0 <= i < |newIds| ==> newIds[i] in known && known[newIds[i]] == entries[i].data
  }

  lemma LearnedAssigned(known: map<BlockId, Bytes>, entries: seq<Entry>, newIds: seq<BlockId>)
    requires |newIds| == |entries| && Distinct(newIds)
    ensures Assigned(Learned(known, entries, newIds), entries, newIds)
  {
  }

  lemma HashesStep(entries: seq<Entry>, i: nat)
    requires DistinctHashes(entries) && i < |entries|
    ensures Hashes(entries[i..]) - {entries[i].hash} == Hashes(entries[i + 1..])
    ensures Hashes(entries[..i + 1]) == Hashes(entries[..i]) + {entries[i].hash}
  {
    assert entries[i..] == [entries[i]] + entries[i + 1..];
    assert entries[..i + 1] == entries[..i] + [entries[i]];
    HashesSnoc(entries[..i], entries[i]);
  }

  lemma CataloguedInsert(ids: map<Digest, BlockId>, known: map<BlockId, Bytes>, h: Digest, id: BlockId)
    requires Catalogued(ids, known) && id in known && Sha256(known[id]) == h
    ensures Catalogued(ids[h := id], known)
  {
  }

  /** The first i flushed hashes have moved from `pending` to `ids`, which had been `before`. */
  ghost predicate Adopting(before: map<Digest, BlockId>, ids: map<Digest, BlockId>, pending: set<Digest>,
                           entries: seq<Entry>, i: nat, known: map<BlockId, Bytes>)
    requires i <= |entries|
  {
    && pending == Hashes(entries[i..]) && ids.Keys == before.Keys + Hashes(entries[..i]) && Catalogued(ids, known)
    && forall h :: h in before ==> h in ids && ids[h] == before[h]
  }

  lemma AdoptStart(ids: map<Digest, BlockId>, entries: seq<Entry>, known: map<BlockId, Bytes>)
    requires Catalogued(ids, known)
    ensures Adopting(ids, ids, Hashes(entries), entries, 0, known)
  {
    assert entries[0..] == entries;
  }

  lemma AdoptStep(before: map<Digest, BlockId>, ids: map<Digest, BlockId>, pending: set<Digest>, entries: seq<Entry>,
                  i: nat, known: map<BlockId, Bytes>, id: BlockId)
    requires i < |entries| && Adopting(before, ids, pending, entries, i, known) && DistinctHashes(entries)
    requires id in known && Sha256(known[id]) == entries[i].hash && entries[i].hash !in before
    ensures Adopting(before, ids[entries[i].hash := id], pending - {entries[i].hash}, entries, i + 1, known)
  {
    HashesStep(entries, i);
    CataloguedInsert(ids, known, entries[i].hash, id);
  }

  lemma AdoptEnd(before: map<Digest, BlockId>, ids: map<Digest, BlockId>, pending: set<Digest>, entries: seq<Entry>,
                 known: map<BlockId, Bytes>)
    requires Adopting(before, ids, pending, entries, |entries|, known)
    ensures pending == {} && ids.Keys == before.Keys + Hashes(entries)
  {
    assert entries[..|entries|] == entries;
  }

  lemma LearnedKeeps(ids: map<Digest, BlockId>, known: map<BlockId, Bytes>, entries: seq<Entry>, newIds: seq<BlockId>)
    requires Catalogued(ids, known) && |newIds| == |entries| && Distinct(newIds)
    requires forall i :: 0 <= i < |newIds| ==> newIds[i] !in known
    ensures Catalogued(ids, Learned(known, entries, newIds)) && Extends(known, Learned(known, entries, newIds))
  {
    var more := Learned(known, entries, newIds);
    forall b | b in known
      ensures b in more && more[b] == known[b]
    {
    }
  }

  /** Every known block is catalogued under the hash of the data it stands for. */
  ghost predicate KnownMatch(known: map<BlockId, Bytes>, blocks: Blocks) {
    forall b :: b in known ==> b in blocks && blocks[b].sha == Sha256(known[b])
  }

  lemma LearnedMatch(s: State, p: PackId, sha: Digest, entries: seq<Entry>, newIds: seq<BlockId>)
    requires s.actor.Worker? && KnownMatch(s.actor.known, s.blocks) && NewBlockRows(s, entries, newIds)
    requires forall e :: e in entries ==> WellFormed(e)
    ensures KnownMatch(Learned(s.actor.known, entries, newIds), RecordPack(s, p, sha, entries, newIds).blocks)
    ensures KeptRows(s.blocks, RecordPack(s, p, sha, entries, newIds).blocks)
  {
    PlaceContents(s.blocks, p, entries, newIds, |newIds|);
    var blocks' := RecordPack(s, p, sha, entries, newIds).blocks;
    forall i | 0 <= i < |newIds|
      ensures newIds[i] in blocks' && blocks'[newIds[i]].sha == Sha256(entries[i].data)
    {
      assert entries[i] in entries;
    }
    assert forall b :: b in s.blocks ==> !Among(newIds, |newIds|, b);
    MatchMore(s.actor.known, s.blocks, blocks', entries, newIds);
  }

  lemma MatchMore(known: map<BlockId, Bytes>, blocks: Blocks, blocks': Blocks, entries: seq<Entry>,
                  newIds: seq<BlockId>)
    requires KnownMatch(known, blocks) && |newIds| == |entries| && Distinct(newIds)
    requires forall b :: b in blocks ==> b in blocks' && blocks'[b] == blocks[b]
    requires forall i :: 0 <= i < |newIds| ==> newIds[i] in blocks' && blocks'[newIds[i]].sha == Sha256(entries[i].data)
    ensures KnownMatch(Learned(known, entries, newIds), blocks')
  {
  }

  predicate KeptRows<K(==), V(==)>(rows: map<K, V>, more: map<K, V>) {
    forall k :: k in rows ==> k in more && more[k] == rows[k]
  }

  /** Packs and blocks were at most added; otherwise only objects and what the worker knows have changed. */
  predicate SameTables(s: State, t: State) {
    && KeptRows(s.packs, t.packs) && KeptRows(s.blocks, t.blocks)
    && t.snaps == s.snaps && t.items == s.items && t.links == s.links && t.deleting == s.deleting
    && s.actor.Worker? && t.actor.Worker? && t.actor.draft == s.actor.draft
  }

  /** No object is lost, and none is replaced but under the name of a pack whose upload was tried. */
  ghost predicate ObjectsKept(objects: map<Digest, Bytes>, more: map<Digest, Bytes>, tried: set<seq<Entry>>) {
    forall id :: id in objects ==> id in more && (more[id] == objects[id] || NamesTried(id, tried))
  }

  ghost predicate NamesTried(id: Digest, tried: set<seq<Entry>>) {
    exists es :: es in tried && id == Sha256(PackBytes(es))
  }

  lemma UploadKeepsObjects(start: State, s: State, entries: seq<Entry>, tried: set<seq<Entry>>, t: State)
    requires ObjectsKept(start.objects, s.objects, tried) && UploadTried(s, PackBytes(entries), t)
    ensures ObjectsKept(start.objects, t.objects, tried + {entries})
  {
    forall id | id in start.objects
      ensures id in t.objects && (t.objects[id] == start.objects[id] || NamesTried(id, tried + {entries}))
    {
      assert entries in tried + {entries};
      if NamesTried(id, tried) {
        var es :| es in tried && id == Sha256(PackBytes(es));
        assert es in tried + {entries};
      }
    }
  }

  /** The pack has its row in the catalog. */
  ghost predicate HasRow(packs: Packs, es: seq<Entry>) {
    exists p :: p in packs && packs[p] == PackRow(Sha256(PackBytes(es)), Ready, EncodedSize(es))
  }

  ghost predicate HaveRows(packs: Packs, flushed: seq<seq<Entry>>) {
    forall es :: es in flushed ==> HasRow(packs, es)
  }

  /** Recording a new pack adds rows and touches none. */
  lemma RecordKeepsRows(start: State, s: State, p: PackId, entries: seq<Entry>, newIds: seq<BlockId>,
                        flushed: seq<seq<Entry>>, t: State)
    requires SameTables(start, s) && NewPackRow(s, p, Sha256(PackBytes(entries))) && NewBlockRows(s, entries, newIds)
    requires t == RecordPack(s, p, Sha256(PackBytes(entries)), entries, newIds).(actor := t.actor)
    requires t.actor.Worker? && t.actor.draft == s.actor.draft && KeptRows(s.blocks, t.blocks)
    requires HaveRows(s.packs, flushed)
    ensures SameTables(start, t) && HaveRows(t.packs, flushed + [entries]) && HaveRows(t.packs, flushed)
  {
    assert KeptRows(s.packs, t.packs);
    assert t.packs[p] == PackRow(Sha256(PackBytes(entries)), Ready, EncodedSize(entries));
    assert HasRow(t.packs, entries);
    forall es | es in flushed
      ensures HasRow(t.packs, es)
    {
      var q :| q in s.packs && s.packs[q] == PackRow(Sha256(PackBytes(es)), Ready, EncodedSize(es));
      assert t.packs[q] == s.packs[q];
    }
  }

  /** Every block of the pack is among the material. */
  ghost predicate MadeOf(es: seq<Entry>, material: iset<Bytes>) {
    forall e :: e in es ==> e.data in material
  }

  /** How the repository agrees with what the builder remembers. */
  ghost predicate Tracks(start: State, s: State, ids: map<Digest, BlockId>, flushed: seq<seq<Entry>>,
                         tried: set<seq<Entry>>) {
    && s.actor.Worker? && Catalogued(ids, s.actor.known) && KnownMatch(s.actor.known, s.blocks)
    && HaveRows(s.packs, flushed) && SameTables(start, s) && ObjectsKept(start.objects, s.objects, tried)
  }

  /** The repository once the pack is recorded and its blocks are known. */
  function AfterRecord(s: State, p: PackId, entries: seq<Entry>, newIds: seq<BlockId>): State
    requires s.actor.Worker? && |newIds| == |entries| && Distinct(newIds)
  {
    RecordPack(s, p, Sha256(PackBytes(entries)), entries, newIds)
      .(actor := s.actor.(known := Learned(s.actor.known, entries, newIds)))
  }

  lemma RecordTracks(start: State, s: State, ids: map<Digest, BlockId>, flushed: seq<seq<Entry>>,
                     tried: set<seq<Entry>>, p: PackId, entries: seq<Entry>, newIds: seq<BlockId>)
    requires Tracks(start, s, ids, flushed, tried) && (forall e :: e in entries ==> WellFormed(e))
    requires NewPackRow(s, p, Sha256(PackBytes(entries))) && NewBlockRows(s, entries, newIds)
    ensures var t := AfterRecord(s, p, entries, newIds);
            && Tracks(start, t, ids, flushed, tried) && HaveRows(t.packs, flushed + [entries])
            && Assigned(t.actor.known, entries, newIds) && Extends(s.actor.known, t.actor.known)
  {
    LearnedKeeps(ids, s.actor.known, entries, newIds);
    LearnedMatch(s, p, Sha256(PackBytes(entries)), entries, newIds);
    LearnedAssigned(s.actor.known, entries, newIds);
    RecordKeepsRows(start, s, p, entries, newIds, flushed, AfterRecord(s, p, entries, newIds));
  }

  /** Recording a stored pack of the material is a step. */
  lemma RecordEvolves(start: State, s: State, p: PackId, entries: seq<Entry>, newIds: seq<BlockId>,
                      material: iset<Bytes>)
    requires Evolves(start, s) && s.actor.Worker? && material <= InPlay && MadeOf(entries, material)
    requires var bytes := PackBytes(entries);
             && IsPackOf(bytes, entries) && bytes in InPlay && Sha256(bytes) in s.objects
             && s.objects[Sha256(bytes)] == bytes && NewPackRow(s, p, Sha256(bytes))
    requires NewBlockRows(s, entries, newIds)
    ensures Evolves(start, AfterRecord(s, p, entries, newIds))
  {
    assert ValidatedObject(s, Sha256(PackBytes(entries)), entries);
    var step := Record(p, Sha256(PackBytes(entries)), entries, newIds);
    EvolvesStep(start, s, step, AfterRecord(s, p, entries, newIds));
  }

  ghost predicate AllMadeOf(entries: seq<Entry>, flushed: seq<seq<Entry>>, tried: set<seq<Entry>>,
                            material: iset<Bytes>) {
    && MadeOf(entries, material) && (forall es :: es in tried ==> MadeOf(es, material))
    && forall es :: es in flushed ==> es in tried
  }

  ghost predicate UsedFrom(tried: set<seq<Entry>>, flushed: seq<seq<Entry>>, last: set<seq<Entry>>) {
    forall es :: es in tried ==> es in flushed || es in last
  }

  /** The buffered pack becomes a recorded one. */
  lemma FlushMoves(entries: seq<Entry>, flushed: seq<seq<Entry>>, tried: set<seq<Entry>>, material: iset<Bytes>)
    requires AllMadeOf(entries, flushed, tried, material) && entries in tried
    ensures AllMadeOf([], flushed + [entries], tried, material)
    ensures UsedFrom(tried, flushed, {entries}) ==> UsedFrom(tried, flushed + [entries], {})
  {
  }

  class PackBuilder {
    var entries: seq<Entry>
    var encodedSize: nat
    var ids: map<Digest, BlockId>
    var pending: set<Digest>
    const session: Session

    // The state in which the builder was created, the blocks it may be given, the packs it has recorded and those
    // whose upload it has tried.
    ghost const start: State
    ghost const material: iset<Bytes>
    ghost var flushed: seq<seq<Entry>>
    ghost var tried: set<seq<Entry>>

    /** The material and the packs made of it lie in the data assumed to be free of collisions. */
    ghost predicate Honest()
      reads this
    {
      material <= InPlay && forall es :: es in tried ==> PackBytes(es) in InPlay
    }

    /** Every pack is made of the material, and the recorded ones were uploaded. */
    ghost predicate Sourced()
      reads this
    {
      AllMadeOf(entries, flushed, tried, material)
    }

    /** Only recorded packs were uploaded, and, if a flush has failed, the buffered one. */
    ghost predicate Used(ok: bool)
      reads this
    {
      UsedFrom(tried, flushed, if ok then {} else {entries})
    }

    /** Every new block so far, in the order it was met. */
    ghost function Placed(): seq<Entry>
      reads this
    {
      Flatten(flushed) + entries
    }

    /** The hashes that references may name: recorded ones and buffered ones. */
    ghost function Keys(): set<Digest>
      reads this
    {
      ids.Keys + pending
    }

    ghost predicate Valid()
      reads this, session
    {
      && Buffered(entries, encodedSize, pending) && ids.Keys !! pending
      && DistinctHashes(Placed()) && Hashes(Placed()) == ids.Keys + pending
      && Sourced() && Tracks(start, session.s, ids, flushed, tried)
      && (Honest() ==> Evolves(start, session.s))
    }

    constructor (session: Session, ghost material: iset<Bytes>)
      requires session.s.actor.Worker? && KnownMatch(session.s.actor.known, session.s.blocks)
      ensures Valid() && entries == [] && flushed == [] && tried == {} && ids == map[] && start == session.s
      ensures this.session == session && this.material == material
    {
      this.session := session;
      this.material := material;
      entries := [];
      encodedSize := PREFIX_SIZE + FOOTER_SIZE;
      ids := map[];
      pending := {};
      start := session.s;
      tried := {};
      flushed := [];
      new;
      EvolvesRefl(start);
    }

    /**
      flush: encodes the buffer, uploads it, reads it back, validates it and records pack and blocks. It either
      empties the buffer into exactly one recorded pack, or fails and leaves the builder as it was.
     */
    method Flush() returns (ok: bool)
      requires Valid()
      modifies this, session
      ensures Valid() && old(tried) <= tried && (old(Used(true)) ==> Used(ok))
      ensures ok ==> entries == [] && pending == {} && Placed() == old(Placed())
      ensures ok ==> encodedSize == PREFIX_SIZE + FOOTER_SIZE
      ensures Keys() == old(Keys())
      ensures ok ==> flushed == if old(entries) == [] then old(flushed) else old(flushed) + [old(entries)]
      ensures !ok ==> entries == old(entries) && pending == old(pending) && ids == old(ids) && flushed == old(flushed)
      ensures forall h :: h in old(ids) ==> h in ids && ids[h] == old(ids[h])
      ensures Extends(old(session.s).actor.known, session.s.actor.known)
    {
      if |entries| == 0 {
        return true;
      }
      var id, offsets;
      ok, id, offsets := Store();
      if !ok {
        return;
      }
      ok := Catalogue(id, offsets);
    }

    /** The second half of flush: the stored pack gets its rows, and the buffer is emptied. */
    method Catalogue(id: Digest, offsets: seq<nat>) returns (ok: bool)
      requires Valid() && PayloadOffsets(entries, offsets) && entries in tried
      requires id == Sha256(PackBytes(entries)) && IsPackOf(PackBytes(entries), entries)
      requires id in session.s.objects && session.s.objects[id] == PackBytes(entries)
      modifies this, session
      ensures Valid() && tried == old(tried) && (old(Used(false)) ==> Used(ok))
      ensures ok ==> entries == [] && pending == {} && Placed() == old(Placed()) && Keys() == old(Keys())
      ensures ok ==> encodedSize == PREFIX_SIZE + FOOTER_SIZE && flushed == old(flushed) + [old(entries)]
      ensures !ok ==> entries == old(entries) && pending == old(pending) && ids == old(ids) && flushed == old(flushed)
      ensures forall h :: h in old(ids) ==> h in ids && ids[h] == old(ids[h])
      ensures Extends(old(session.s).actor.known, session.s.actor.known)
    {
      var p, newIds := session.GenerateIds(|entries|);
      ok := RecordEntries(p, id, offsets, newIds);
      if ok {
        FlushMoves(entries, flushed, tried, material);
        Adopt(newIds);
      }
    }

    /** Storing the buffered entries as an object, without touching the catalog. */
    method Store() returns (ok: bool, id: Digest, offsets: seq<nat>)
      requires Valid()
      modifies this`tried, session
      ensures Valid() && tried == old(tried) + {entries}
      ensures session.s.actor == old(session.s).actor
      ensures ok ==> id == Sha256(PackBytes(entries)) && id in session.s.objects
                     && session.s.objects[id] == PackBytes(entries) && IsPackOf(PackBytes(entries), entries)
                     && PayloadOffsets(entries, offsets)
    {
      BufferedEncodable(entries, encodedSize, pending);
      ghost var before := session.s;
      ok, id, offsets := session.StorePack(entries);
      UploadKeepsObjects(start, before, entries, tried, session.s);
      tried := tried + {entries};
      if Honest() {
        UploadEvolves(start, before, PackBytes(entries), session.s);
      }
    }

    /** Recording the stored pack: one transaction, after which the worker may use the new block IDs. */
    method RecordEntries(p: PackId, id: Digest, offsets: seq<nat>, newIds: seq<BlockId>) returns (ok: bool)
      requires Valid() && |newIds| == |entries| && PayloadOffsets(entries, offsets)
      requires id == Sha256(PackBytes(entries)) && IsPackOf(PackBytes(entries), entries)
      requires id in session.s.objects && session.s.objects[id] == PackBytes(entries) && entries in tried
      modifies session
      ensures Valid() && (ok ==> HaveRows(session.s.packs, flushed + [entries]))
      ensures !ok ==> session.s == old(session.s)
      ensures ok ==> Assigned(session.s.actor.known, entries, newIds)
      ensures Extends(old(session.s).actor.known, session.s.actor.known)
    {
      ghost var before := session.s;
      ok := session.RecordPackAndBlocks(p, id, entries, offsets, newIds);
      if !ok {
        return;
      }
      session.s := session.s.(actor := session.s.actor.(known := Learned(session.s.actor.known, entries, newIds)));
      RecordTracks(start, before, ids, flushed, tried, p, entries, newIds);
      if Honest() {
        RecordEvolves(start, before, p, entries, newIds, material);
      }
    }

    /** The end of flush: every flushed hash moves from `pending` to `ids`. */
    method Adopt(newIds: seq<BlockId>)
      requires session.s.actor.Worker? && Buffered(entries, encodedSize, pending) && ids.Keys !! pending
      requires Assigned(session.s.actor.known, entries, newIds) && Catalogued(ids, session.s.actor.known)
      modifies this
      ensures entries == [] && pending == {} && flushed == old(flushed) + [old(entries)] && tried == old(tried)
      ensures Buffered(entries, encodedSize, pending) && Placed() == old(Placed())
      ensures ids.Keys == old(ids).Keys + old(pending) && Catalogued(ids, session.s.actor.known)
      ensures forall h :: h in old(ids) ==> h in ids && ids[h] == old(ids[h])
    {
      AdoptStart(ids, entries, session.s.actor.known);
      for i := 0 to |entries|
        invariant entries == old(entries) && flushed == old(flushed) && tried == old(tried)
        invariant Adopting(old(ids), ids, pending, entries, i, session.s.actor.known)
      {
        assert entries[i] in entries;
        AdoptStep(old(ids), ids, pending, entries, i, session.s.actor.known, newIds[i]);
        ids := ids[entries[i].hash := newIds[i]];
        pending := pending - {entries[i].hash};
      }
      AdoptEnd(old(ids), ids, pending, entries, session.s.actor.known);
      FlattenSnoc(flushed, entries);
      flushed := flushed + [entries];
      entries := [];
      encodedSize := PREFIX_SIZE + FOOTER_SIZE;
    }

    /** Bookkeeping for a successful catalog lookup: the block ID stands for the data just read. */
    method Know(id: BlockId, data: Bytes)
      requires Valid() && data in material
      requires id in session.s.blocks && session.s.blocks[id].sha == Sha256(data)
      requires HasState(session.s.packs, session.s.blocks[id].pack, Ready)
      modifies session
      ensures Valid() && Extends(old(session.s).actor.known, session.s.actor.known)
      ensures id in session.s.actor.known && Sha256(session.s.actor.known[id]) == Sha256(data)
    {
      if id !in session.s.actor.known {
        ghost var before := session.s;
        session.s := session.s.(actor := session.s.actor.(known := session.s.actor.known[id := data]));
        if Honest() {
          LookupEvolves(start, before, id, data, session.s);
        }
      }
    }

    /** add: buffers a new block, flushing first when the pack would outgrow its limit. */
    method Add(e: Entry) returns (ok: bool)
      requires Valid() && WellFormed(e) && e.hash !in ids && e.data in material
      modifies this, session
      ensures Valid() && old(tried) <= tried && (old(Used(true)) ==> Used(ok))
      ensures ok ==> e.hash in pending && Keys() == old(Keys()) + {e.hash}
      ensures ok ==> Placed() == if e.hash in old(pending) then old(Placed()) else old(Placed()) + [e]
      ensures Extends(old(session.s).actor.known, session.s.actor.known)
      ensures old(Keys()) <= Keys()
    {
      if e.hash in pending {
        return true;
      }
      ok := MakeRoom(32 + 4 + |e.data|);
      if ok {
        assert e.hash !in Keys();
        Buffer(e);
      }
    }

    method MakeRoom(entrySize: nat) returns (ok: bool)
      requires Valid() && entrySize <= 36 + BLOCK_SIZE
      modifies this, session
      ensures Valid() && old(tried) <= tried && (old(Used(true)) ==> Used(ok))
      ensures ok ==> encodedSize + entrySize <= MAX_PACK_SIZE
      ensures ok ==> Placed() == old(Placed())
      ensures Extends(old(session.s).actor.known, session.s.actor.known) && Keys() == old(Keys())
    {
      ok := true;
      if encodedSize + entrySize > MAX_PACK_SIZE && |entries| > 0 {
        ok := Flush();
      }
    }

    method Buffer(e: Entry)
      requires Valid() && WellFormed(e) && e.hash !in ids && e.hash !in pending && e.data in material
      requires encodedSize + 36 + |e.data| <= MAX_PACK_SIZE
      modifies this
      ensures Valid() && tried == old(tried) && flushed == old(flushed)
      ensures pending == old(pending) + {e.hash} && ids == old(ids)
      ensures Placed() == old(Placed()) + [e]
    {
      BufferMore(entries, encodedSize, pending, e);
      PlacedMore(Flatten(flushed), entries, e, ids.Keys + pending);
      entries := entries + [e];
      pending := pending + {e.hash};
      encodedSize := encodedSize + (32 + 4 + |e.data|);
    }
  }

  lemma {:induction false} FlattenMadeOf(packs: seq<seq<Entry>>, material: iset<Bytes>)
    requires forall es :: es in packs ==> MadeOf(es, material)
    ensures MadeOf(Flatten(packs), material)
  {
    if packs != [] {
      FlattenMadeOf(packs[..|packs| - 1], material);
      assert packs[|packs| - 1] in packs;
    }
  }

  /** Every block the builder has placed is one it was given. */
  lemma PlacedMadeOf(b: PackBuilder)
    requires b.Sourced()
    ensures MadeOf(b.Placed(), b.material)
  {
    FlattenMadeOf(b.flushed, b.material);
  }

  lemma PlacedMore(before: seq<Entry>, entries: seq<Entry>, e: Entry, keys: set<Digest>)
    requires DistinctHashes(before + entries) && Hashes(before + entries) == keys && e.hash !in keys
    ensures before + (entries + [e]) == (before + entries) + [e]
    ensures DistinctHashes(before + (entries + [e])) && Hashes(before + (entries + [e])) == keys + {e.hash}
  {
    var all := before + entries;
    assert before + (entries + [e]) == all + [e];
    HashesSnoc(all, e);
    forall i | 0 <= i < |all|
      ensures all[i].hash != e.hash
    {
      assert all[i] in all;
    }
  }
}
