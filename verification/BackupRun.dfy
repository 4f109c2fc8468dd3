/** Backing up files through the pack builder: deduplication, retries, and what the recorded references mean. */
module BackupRuns {
  import opened Bytes
  import opened PackFormat
  import opened Repository
  import opened RepositorySafety
  import opened SnapshotDurability
  import opened Sessions
  import opened PackBuilding

  type Time = int

  datatype Resource = Resource(path: string, isDir: bool, size: nat, lastModified: Time)

  datatype ScannedFile = ScannedFile(sourcePath: string, relativePath: Path, size: nat, mtime: Time)

  predicate SameSource(file: ScannedFile, r: Resource) {
    !r.isDir && r.size == file.size && r.lastModified == file.mtime && r.path == file.sourcePath
  }

  /** What the provider answers in one attempt: an inspection, the stream, and an inspection afterwards. */
  datatype Attempt = Attempt(before: Resource, stream: Bytes, after: Resource)

  predicate Stable(file: ScannedFile, a: Attempt) {
    SameSource(file, a.before) && SameSource(file, a.after)
  }

  datatype PendingFile = PendingFile(file: ScannedFile, fileHash: Digest, refs: seq<Bytes>)

  datatype FileResult = Backed(item: PendingFile) | Unstable | Failed

  // ---- References ------------------------------------------------------------------------------

  /**
    A reference is a 36-byte catalog ID or a 32-byte hash placeholder; `keys` are the hashes the builder has
    recorded or buffered.
   */
  ghost predicate RefersTo(known: map<BlockId, Bytes>, keys: set<Digest>, ref: Bytes, data: Bytes) {
    || (|ref| == 36 && ref in known && Sha256(known[ref]) == Sha256(data))
    || (|ref| == 32 && ref in keys && ref == Sha256(data))
  }

  ghost predicate AllRefer(known: map<BlockId, Bytes>, keys: set<Digest>, refs: seq<Bytes>, parts: seq<Bytes>) {
    |refs| == |parts| && forall i :: 0 <= i < |refs| ==> RefersTo(known, keys, refs[i], parts[i])
  }

  lemma StillRefer(known: map<BlockId, Bytes>, keys: set<Digest>, known': map<BlockId, Bytes>, keys': set<Digest>,
                   refs: seq<Bytes>, parts: seq<Bytes>)
    requires AllRefer(known, keys, refs, parts) && Extends(known, known') && keys <= keys'
    ensures AllRefer(known', keys', refs, parts)
  {
  }

  function TotalData(entries: seq<Entry>): nat {
    if entries == [] then 0 else TotalData(entries[..|entries| - 1]) + |entries[|entries| - 1].data|
  }

  lemma TotalDataSnoc(entries: seq<Entry>, e: Entry)
    ensures TotalData(entries + [e]) == TotalData(entries) + |e.data|
  {
    assert (entries + [e])[..|entries|] == entries;
  }

  /**
    The callback of backupFile for one block: a recorded block, a buffered one, one found in a READY pack, or a
    new one. Its bytes are either counted as deduplicated or placed as a new block, never both.
   */
  method Reference(b: PackBuilder, e: Entry) returns (ok: bool, ref: Bytes, dedup: nat)
    requires b.Valid() && WellFormed(e) && e.data in b.material
    modifies b, b.session
    ensures b.Valid() && old(b.tried) <= b.tried && (old(b.Used(true)) ==> b.Used(ok))
    ensures Extends(old(b.session.s).actor.known, b.session.s.actor.known) && old(b.Keys()) <= b.Keys()
    ensures ok ==> RefersTo(b.session.s.actor.known, b.Keys(), ref, e.data)
    ensures ok ==> || (dedup == |e.data| && b.Placed() == old(b.Placed()))
                   || (dedup == 0 && b.Placed() == old(b.Placed()) + [e])
  {
    ref, dedup := e.hash, 0;
    if e.hash in b.ids {
      return true, b.ids[e.hash], |e.data|;
    }
    if e.hash in b.pending {
      return true, e.hash, |e.data|;
    }
    var found, id := b.session.FindBlock(e.hash);
    if found {
      b.Know(id, e.data);
      return true, id, |e.data|;
    }
    ok := b.Add(e);
  }

  lemma ReferMore(known: map<BlockId, Bytes>, keys: set<Digest>, refs: seq<Bytes>, parts: seq<Bytes>, ref: Bytes,
                  data: Bytes)
    requires AllRefer(known, keys, refs, parts) && RefersTo(known, keys, ref, data)
    ensures AllRefer(known, keys, refs + [ref], parts + [data])
  {
  }

  /** The blocks of the stream are among the material. */
  ghost predicate Covers(material: iset<Bytes>, stream: Bytes) {
    forall x :: IsBlock(stream, x) ==> x in material
  }

  lemma CoveredBlock(material: iset<Bytes>, stream: Bytes, entries: seq<Entry>, i: nat)
    requires Covers(material, stream) && BlocksOf(stream, entries) && i < |entries|
    ensures entries[i].data in material
  {
    assert BlockIs(stream, i, entries[i].data);
  }

  /** One streamed attempt: SplitBlocks with the callback above. */
  method BackupStream(b: PackBuilder, stream: Bytes)
    returns (ok: bool, fileHash: Digest, refs: seq<Bytes>, dedup: nat, ghost parts: seq<Bytes>)
    requires b.Valid() && Covers(b.material, stream)
    modifies b, b.session
    ensures b.Valid() && old(b.tried) <= b.tried && (old(b.Used(true)) ==> b.Used(ok))
    ensures Extends(old(b.session.s).actor.known, b.session.s.actor.known) && old(b.Keys()) <= b.Keys()
    ensures ok ==> fileHash == Sha256(stream) && Concat(parts) == stream
    ensures ok ==> AllRefer(b.session.s.actor.known, b.Keys(), refs, parts)
    ensures ok ==> forall p :: p in parts ==> p in b.material
    ensures ok ==> dedup + TotalData(b.Placed()) == |stream| + TotalData(old(b.Placed()))
  {
    var entries;
    entries, fileHash := SplitBlocks(stream);
    refs, dedup, parts := [], 0, [];
    for i := 0 to |entries|
      invariant b.Valid() && old(b.tried) <= b.tried && (old(b.Used(true)) ==> b.Used(true))
      invariant Extends(old(b.session.s).actor.known, b.session.s.actor.known) && old(b.Keys()) <= b.Keys()
      invariant AllRefer(b.session.s.actor.known, b.Keys(), refs, parts)
      invariant parts == Payloads(entries[..i])
      invariant forall p :: p in parts ==> p in b.material
      invariant dedup + TotalData(b.Placed()) == |Concat(parts)| + TotalData(old(b.Placed()))
    {
      ghost var known, keys, placed := b.session.s.actor.known, b.Keys(), b.Placed();
      CoveredBlock(b.material, stream, entries, i);
      var ref, saved;
      ok, ref, saved := Reference(b, entries[i]);
      if !ok {
        return;
      }
      StillRefer(known, keys, b.session.s.actor.known, b.Keys(), refs, parts);
      ReferMore(b.session.s.actor.known, b.Keys(), refs, parts, ref, entries[i].data);
      TotalDataSnoc(placed, entries[i]);
      ConcatSnoc(parts, entries[i].data);
      PayloadsPrefix(entries, i);
      refs := refs + [ref];
      parts := parts + [entries[i].data];
      dedup := dedup + saved;
    }
    assert entries[..|entries|] == entries;
    ok := true;
  }

  lemma PayloadsPrefix(entries: seq<Entry>, i: nat)
    requires i < |entries|
    ensures Payloads(entries[..i + 1]) == Payloads(entries[..i]) + [entries[i].data]
  {
  }

  /** What a backed-up file promises: the hash of its stream, and references that stand for its parts. */
  ghost predicate Promised(known: map<BlockId, Bytes>, keys: set<Digest>, material: iset<Bytes>, item: PendingFile,
                           parts: seq<Bytes>) {
    && item.fileHash == Sha256(Concat(parts))
    && AllRefer(known, keys, item.refs, parts)
    && forall p :: p in parts ==> p in material
  }

  ghost predicate Promises(b: PackBuilder, item: PendingFile, parts: seq<Bytes>)
    reads b, b.session
  {
    b.session.s.actor.Worker? && Promised(b.session.s.actor.known, b.Keys(), b.material, item, parts)
  }

  lemma StillPromised(known: map<BlockId, Bytes>, keys: set<Digest>, known': map<BlockId, Bytes>, keys': set<Digest>,
                      material: iset<Bytes>, items: seq<PendingFile>, parts: seq<seq<Bytes>>)
    requires Extends(known, known') && keys <= keys' && |items| == |parts|
    requires forall i :: 0 <= i < |items| ==> Promised(known, keys, material, items[i], parts[i])
    ensures forall i :: 0 <= i < |items| ==> Promised(known', keys', material, items[i], parts[i])
  {
    forall i | 0 <= i < |items|
      ensures Promised(known', keys', material, items[i], parts[i])
    {
      StillRefer(known, keys, known', keys', items[i].refs, parts[i]);
    }
  }

  /** What an attempt streams: nothing if the source has already changed. */
  function AttemptBytes(file: ScannedFile, a: Attempt): nat {
    if SameSource(file, a.before) then |a.stream| else 0
  }

  method TryBackup(b: PackBuilder, file: ScannedFile, attempt: Attempt)
    returns (r: FileResult, dedup: nat, ghost parts: seq<Bytes>)
    requires b.Valid() && Covers(b.material, attempt.stream)
    modifies b, b.session
    ensures b.Valid() && old(b.tried) <= b.tried && (old(b.Used(true)) ==> b.Used(!r.Failed?))
    ensures Extends(old(b.session.s).actor.known, b.session.s.actor.known) && old(b.Keys()) <= b.Keys()
    ensures r.Backed? ==>
      Stable(file, attempt) && Concat(parts) == attempt.stream && r.item.file == file && Promises(b, r.item, parts)
    ensures r.Unstable? ==> !Stable(file, attempt)
    ensures !r.Failed? ==> dedup + TotalData(b.Placed()) == AttemptBytes(file, attempt) + TotalData(old(b.Placed()))
  {
    dedup, parts := 0, [];
    if * {
      return Failed, dedup, parts;
    }
    if !SameSource(file, attempt.before) {
      return Unstable, dedup, parts;
    }
    var ok, fileHash, refs;
    ok, fileHash, refs, dedup, parts := BackupStream(b, attempt.stream);
    if !ok {
      return Failed, dedup, parts;
    }
    r := if SameSource(file, attempt.after) then Backed(PendingFile(file, fileHash, refs)) else Unstable;
  }

  ghost predicate FromStableAttempt(file: ScannedFile, attempts: seq<Attempt>, stream: Bytes) {
    exists k :: 0 <= k < |attempts| && Stable(file, attempts[k]) && attempts[k].stream == stream
  }

  /** What backing up a file streams: the second attempt only follows an unstable first one. */
  function FileBytes(file: ScannedFile, attempts: seq<Attempt>): nat
    requires |attempts| == 2
  {
    AttemptBytes(file, attempts[0]) + if Stable(file, attempts[0]) then 0 else AttemptBytes(file, attempts[1])
  }

  /**
    backupFile: at most two attempts, each kept only if the source looks the same before and after. An unstable
    file is omitted, but the blocks of its discarded attempts stay accounted for.
   */
  method BackupFile(b: PackBuilder, file: ScannedFile, attempts: seq<Attempt>)
    returns (r: FileResult, dedup: nat, ghost parts: seq<Bytes>)
    requires b.Valid() && |attempts| == 2
    requires Covers(b.material, attempts[0].stream) && Covers(b.material, attempts[1].stream)
    modifies b, b.session
    ensures b.Valid() && old(b.tried) <= b.tried && (old(b.Used(true)) ==> b.Used(!r.Failed?))
    ensures Extends(old(b.session.s).actor.known, b.session.s.actor.known) && old(b.Keys()) <= b.Keys()
    ensures r.Backed? ==>
      FromStableAttempt(file, attempts, Concat(parts)) && r.item.file == file && Promises(b, r.item, parts)
    ensures r.Unstable? ==> !Stable(file, attempts[0]) && !Stable(file, attempts[1])
    ensures !r.Failed? ==> dedup + TotalData(b.Placed()) == FileBytes(file, attempts) + TotalData(old(b.Placed()))
  {
    r, dedup, parts := TryBackup(b, file, attempts[0]);
    if r.Unstable? {
      var more;
      r, more, parts := TryBackup(b, file, attempts[1]);
      dedup := dedup + more;
    }
  }

  // ---- Resolving placeholders ------------------------------------------------------------------

  /** resolveBlockID: a recorded hash becomes its catalog ID; a catalog ID, being 36 bytes long, stays as it is. */
  function Resolve(ids: map<Digest, BlockId>, ref: Bytes): Bytes {
    if |ref| == 32 && ref in ids then ids[ref] else ref
  }

  /** Once nothing is pending, every reference resolves to a block ID that stands for its part. */
  lemma ResolvedRef(ids: map<Digest, BlockId>, known: map<BlockId, Bytes>, ref: Bytes, data: Bytes)
    requires Catalogued(ids, known) && RefersTo(known, ids.Keys, ref, data)
    ensures var id := Resolve(ids, ref);
            |id| == 36 && id in known && Sha256(known[id]) == Sha256(data)
  {
  }

  function ResolveAll(ids: map<Digest, BlockId>, refs: seq<Bytes>): seq<Bytes> {
    seq(|refs|, i requires 0 <= i < |refs| => Resolve(ids, refs[i]))
  }

  ghost predicate IsBlockOf(known: map<BlockId, Bytes>, ref: Bytes, data: Bytes) {
    |ref| == 36 && ref in known && known[ref] == data
  }

  ghost predicate StandForParts(known: map<BlockId, Bytes>, resolved: seq<Bytes>, parts: seq<Bytes>) {
    |resolved| == |parts| && forall i :: 0 <= i < |parts| ==> IsBlockOf(known, resolved[i], parts[i])
  }

  /**
    The deduplicated round trip. After the final flush, every reference of a backed-up file resolves to a
    catalogued block in a READY pack, and the blocks, in order, are exactly the parts of the file's stream.
   */
  lemma ResolvedFile(start: State, s: State, ids: map<Digest, BlockId>, refs: seq<Bytes>, parts: seq<Bytes>)
    requires CollisionFree() && Inv(start) && Safe(start) && Evolves(start, s) && s.actor.Worker?
    requires Catalogued(ids, s.actor.known) && AllRefer(s.actor.known, ids.Keys, refs, parts)
    requires forall p :: p in parts ==> p in InPlay
    ensures StandForParts(s.actor.known, ResolveAll(ids, refs), parts)
    ensures forall i :: 0 <= i < |refs| ==>
              var id := Resolve(ids, refs[i]);
              |id| == 36 && id in s.blocks && HasState(s.packs, s.blocks[id].pack, Ready)
  {
    EvolvesKeeps(start, s);
    var known := s.actor.known;
    assert Usable(s.blocks, s.packs, known);
    forall i | 0 <= i < |refs|
      ensures var id := Resolve(ids, refs[i]);
              && |id| == 36 && id in known && known[id] == parts[i]
              && id in s.blocks && HasState(s.packs, s.blocks[id].pack, Ready)
    {
      ResolvedRef(ids, known, refs[i], parts[i]);
      assert parts[i] in parts;
      var id: BlockId := Resolve(ids, refs[i]);
      assert StandsFor(s.blocks, id, known[id]);
    }
  }

  // ---- All files of a run ----------------------------------------------------------------------

  datatype FileInput = FileInput(file: ScannedFile, inspected: Resource, attempts: seq<Attempt>)

  /** One file of the previous snapshot's catalog. */
  datatype CatalogItem = CatalogItem(size: nat, mtime: Time, fileSha: Digest, blockIds: seq<BlockId>)

  const ZERO_DIGEST: Digest := [0, 0, 0, 0, 0, 0, 0, 0, 0, 0, 0, 0, 0, 0, 0, 0,
                                0, 0, 0, 0, 0, 0, 0, 0, 0, 0, 0, 0, 0, 0, 0, 0]

  /** The guard of incremental reuse in execute; time 0 is the zero time. */
  predicate Reusable(prev: CatalogItem, file: ScannedFile, inspected: Resource) {
    && file.mtime != 0 && prev.mtime != 0 && prev.mtime == file.mtime && prev.size == file.size
    && (file.size == 0 || |prev.blockIds| > 0)
    && prev.fileSha != ZERO_DIGEST
    && SameSource(file, inspected)
  }

  ghost predicate ItemKnown(item: CatalogItem, parts: seq<Bytes>, known: map<BlockId, Bytes>) {
    && |parts| == |item.blockIds| && item.fileSha == Sha256(Concat(parts))
    && forall i :: 0 <= i < |parts| ==> item.blockIds[i] in known && known[item.blockIds[i]] == parts[i]
  }

  /** The worker knows what the block IDs of every catalogued file stand for. */
  ghost predicate CatalogKnown(previous: map<Path, CatalogItem>, prevParts: map<Path, seq<Bytes>>,
                               known: map<BlockId, Bytes>) {
    forall path :: path in previous ==> path in prevParts && ItemKnown(previous[path], prevParts[path], known)
  }

  lemma ReusedRefer(previous: map<Path, CatalogItem>, prevParts: map<Path, seq<Bytes>>, known: map<BlockId, Bytes>,
                    known': map<BlockId, Bytes>, keys: set<Digest>, path: Path)
    requires CatalogKnown(previous, prevParts, known) && Extends(known, known') && path in previous
    ensures AllRefer(known', keys, previous[path].blockIds, prevParts[path])
  {
  }

  predicate ReusedFrom(input: FileInput, previous: map<Path, CatalogItem>) {
    input.file.relativePath in previous && Reusable(previous[input.file.relativePath], input.file, input.inspected)
  }

  /** The item is the input's: previous blocks and hash if the file is unchanged, else what a stable attempt read. */
  ghost predicate Genuine(input: FileInput, previous: map<Path, CatalogItem>, prevParts: map<Path, seq<Bytes>>,
                          item: PendingFile, parts: seq<Bytes>) {
    && item.file == input.file
    && (if ReusedFrom(input, previous)
        then
          var path := input.file.relativePath;
          path in prevParts && parts == prevParts[path]
          && item.fileHash == previous[path].fileSha && item.refs == previous[path].blockIds
        else FromStableAttempt(input.file, input.attempts, Concat(parts)))
  }

  /** Only a file that could not be reused and was unstable in both attempts is left out. */
  predicate Omitted(input: FileInput, previous: map<Path, CatalogItem>)
    requires |input.attempts| == 2
  {
    !ReusedFrom(input, previous) && !Stable(input.file, input.attempts[0]) && !Stable(input.file, input.attempts[1])
  }

  /** The bytes a file contributes: its listed size if it is reused, else what its attempts streamed. */
  function InputBytes(input: FileInput, previous: map<Path, CatalogItem>): nat
    requires |input.attempts| == 2
  {
    if ReusedFrom(input, previous) then input.file.size else FileBytes(input.file, input.attempts)
  }

  ghost predicate InputCovered(material: iset<Bytes>, input: FileInput) {
    forall k :: 0 <= k < |input.attempts| ==> Covers(material, input.attempts[k].stream)
  }

  ghost predicate InputsCovered(material: iset<Bytes>, inputs: seq<FileInput>) {
    forall i :: 0 <= i < |inputs| ==> InputCovered(material, inputs[i])
  }

  ghost predicate PartsCovered(material: iset<Bytes>, prevParts: map<Path, seq<Bytes>>) {
    forall path :: path in prevParts ==> AllIn(prevParts[path], material)
  }

  ghost predicate AllIn(parts: seq<Bytes>, material: iset<Bytes>) {
    forall p :: p in parts ==> p in material
  }

  /** One file: reused unchanged from the previous snapshot, or backed up afresh. */
  method BackupOrReuse(b: PackBuilder, input: FileInput, previous: map<Path, CatalogItem>,
                       ghost prevParts: map<Path, seq<Bytes>>,
                       ghost base: map<BlockId, Bytes>)
    returns (r: FileResult, dedup: nat, ghost parts: seq<Bytes>)
    requires b.Valid() && |input.attempts| == 2
    requires InputCovered(b.material, input) && PartsCovered(b.material, prevParts)
    requires CatalogKnown(previous, prevParts, base) && Extends(base, b.session.s.actor.known)
    modifies b, b.session
    ensures b.Valid() && old(b.tried) <= b.tried && (old(b.Used(true)) ==> b.Used(!r.Failed?))
    ensures Extends(old(b.session.s).actor.known, b.session.s.actor.known) && old(b.Keys()) <= b.Keys()
    ensures r.Backed? ==> Promises(b, r.item, parts) && Genuine(input, previous, prevParts, r.item, parts)
    ensures r.Unstable? ==> Omitted(input, previous)
    ensures !r.Failed? ==> dedup + TotalData(b.Placed()) == InputBytes(input, previous) + TotalData(old(b.Placed()))
    ensures ReusedFrom(input, previous) ==> b.Placed() == old(b.Placed())
  {
    var path := input.file.relativePath;
    if path in previous && Reusable(previous[path], input.file, input.inspected) {
      dedup, parts := input.file.size, prevParts[path];
      ReusedRefer(previous, prevParts, base, b.session.s.actor.known, b.Keys(), path);
      r := Backed(PendingFile(input.file, previous[path].fileSha, previous[path].blockIds));
    } else {
      r, dedup, parts := BackupFile(b, input.file, input.attempts);
    }
  }

  ghost predicate AllPromised(b: PackBuilder, items: seq<PendingFile>, parts: seq<seq<Bytes>>)
    reads b, b.session
  {
    && b.session.s.actor.Worker? && |items| == |parts|
    && forall i :: 0 <= i < |items| ==> Promised(b.session.s.actor.known, b.Keys(), b.material, items[i], parts[i])
  }

  /** The loop's variables: the files pending and the two counters. */
  datatype RunProgress = RunProgress(items: seq<PendingFile>, dedup: nat, unstable: nat)

  /** What a proof keeps of the past: the parts of each item, and the input it came from. */
  datatype History = History(parts: seq<seq<Bytes>>, origin: seq<nat>)

  ghost predicate TwoAttempts(inputs: seq<FileInput>) {
    forall i :: 0 <= i < |inputs| ==> |inputs[i].attempts| == 2
  }

  /** The items are those of the inputs at the positions `origin`, in order; the first n others were unstable. */
  ghost predicate Accounted(inputs: seq<FileInput>, previous: map<Path, CatalogItem>, prevParts: map<Path, seq<Bytes>>,
                            items: seq<PendingFile>, h: History, n: nat)
    requires n <= |inputs| && TwoAttempts(inputs)
  {
    && |items| == |h.parts| == |h.origin|
    && (forall k :: 0 <= k < |items| ==>
          h.origin[k] < n && Genuine(inputs[h.origin[k]], previous, prevParts, items[k], h.parts[k]))
    && (forall j, k :: 0 <= j < k < |items| ==> h.origin[j] < h.origin[k])
    && (forall i :: 0 <= i < n ==> i in h.origin || Omitted(inputs[i], previous))
  }

  lemma AccountKept(inputs: seq<FileInput>, previous: map<Path, CatalogItem>, prevParts: map<Path, seq<Bytes>>,
                    items: seq<PendingFile>, h: History, n: nat, item: PendingFile, part: seq<Bytes>)
    requires n < |inputs| && TwoAttempts(inputs) && Accounted(inputs, previous, prevParts, items, h, n)
    requires Genuine(inputs[n], previous, prevParts, item, part)
    ensures Accounted(inputs, previous, prevParts, items + [item], History(h.parts + [part], h.origin + [n]), n + 1)
  {
    var more := h.origin + [n];
    assert more[|h.origin|] == n;
    forall i | 0 <= i < n + 1 && !Omitted(inputs[i], previous) ensures i in more {
      if i < n {
        assert i in h.origin;
      }
    }
  }

  lemma AccountOmitted(inputs: seq<FileInput>, previous: map<Path, CatalogItem>, prevParts: map<Path, seq<Bytes>>,
                       items: seq<PendingFile>, h: History, n: nat)
    requires n < |inputs| && TwoAttempts(inputs) && Accounted(inputs, previous, prevParts, items, h, n)
    requires Omitted(inputs[n], previous)
    ensures Accounted(inputs, previous, prevParts, items, h, n + 1)
  {
  }

  /** The bytes the first n inputs contribute. */
  ghost function TotalBytes(inputs: seq<FileInput>, previous: map<Path, CatalogItem>, n: nat): nat
    requires n <= |inputs| && TwoAttempts(inputs)
  {
    if n == 0 then 0 else TotalBytes(inputs, previous, n - 1) + InputBytes(inputs[n - 1], previous)
  }

  /** The counters are those of the first n inputs; `placed` bytes had been placed before. */
  ghost predicate Counted(b: PackBuilder, inputs: seq<FileInput>, previous: map<Path, CatalogItem>, placed: nat, n: nat,
                          p: RunProgress)
    requires n <= |inputs| && TwoAttempts(inputs)
    reads b
  {
    |p.items| + p.unstable == n && p.dedup + TotalData(b.Placed()) == TotalBytes(inputs, previous, n) + placed
  }

  /**
    The file loop of execute with its final flush. Unless the run fails, every input is either among the items or
    counted as unstable; nothing is left pending; and every streamed or reused byte was either deduplicated or
    put into exactly one recorded pack.
   */
  method BackupAll(b: PackBuilder, inputs: seq<FileInput>, previous: map<Path, CatalogItem>,
                   ghost prevParts: map<Path, seq<Bytes>>) returns (ok: bool, p: RunProgress, ghost h: History)
    requires b.Valid() && TwoAttempts(inputs) && CatalogKnown(previous, prevParts, b.session.s.actor.known)
    requires InputsCovered(b.material, inputs) && PartsCovered(b.material, prevParts)
    modifies b, b.session
    ensures b.Valid() && old(b.tried) <= b.tried && (old(b.Used(true)) ==> b.Used(ok))
    ensures ok ==> Accounted(inputs, previous, prevParts, p.items, h, |inputs|)
    ensures ok ==> b.pending == {} && b.entries == [] && AllPromised(b, p.items, h.parts)
    ensures ok ==> Counted(b, inputs, previous, TotalData(old(b.Placed())), |inputs|, p)
  {
    ok, p, h := BackupFiles(b, inputs, previous, prevParts, b.session.s.actor.known, TotalData(b.Placed()));
    if ok {
      ghost var known, keys := b.session.s.actor.known, b.Keys();
      ok := b.Flush();
      StillPromised(known, keys, b.session.s.actor.known, b.Keys(), b.material, p.items, h.parts);
    }
  }

  lemma NothingYet(b: PackBuilder, inputs: seq<FileInput>, previous: map<Path, CatalogItem>,
                   prevParts: map<Path, seq<Bytes>>)
    requires b.Valid() && TwoAttempts(inputs)
    ensures Accounted(inputs, previous, prevParts, [], History([], []), 0) && AllPromised(b, [], [])
    ensures Counted(b, inputs, previous, TotalData(b.Placed()), 0, RunProgress([], 0, 0))
  {
  }

  /** The file loop. */
  method BackupFiles(b: PackBuilder, inputs: seq<FileInput>, previous: map<Path, CatalogItem>,
                     ghost prevParts: map<Path, seq<Bytes>>, ghost base: map<BlockId, Bytes>, ghost placed: nat)
    returns (ok: bool, p: RunProgress, ghost h: History)
    requires b.Valid() && TwoAttempts(inputs) && CatalogKnown(previous, prevParts, base)
    requires InputsCovered(b.material, inputs) && PartsCovered(b.material, prevParts)
    requires base == b.session.s.actor.known && placed == TotalData(b.Placed())
    modifies b, b.session
    ensures b.Valid() && old(b.tried) <= b.tried && (old(b.Used(true)) ==> b.Used(ok))
    ensures ok ==> Accounted(inputs, previous, prevParts, p.items, h, |inputs|) && AllPromised(b, p.items, h.parts)
    ensures ok ==> Counted(b, inputs, previous, placed, |inputs|, p)
  {
    p, h, ok := RunProgress([], 0, 0), History([], []), true;
    NothingYet(b, inputs, previous, prevParts);
    var i := 0;
    while i < |inputs|
      invariant i <= |inputs| && b.Valid() && Extends(base, b.session.s.actor.known)
      invariant old(b.tried) <= b.tried && (old(b.Used(true)) ==> b.Used(true))
      invariant Accounted(inputs, previous, prevParts, p.items, h, i) && AllPromised(b, p.items, h.parts)
      invariant Counted(b, inputs, previous, placed, i, p)
    {
      ok, p, h := BackupTurn(b, inputs, i, previous, prevParts, base, placed, p, h);
      if !ok {
        return;
      }
      i := i + 1;
    }
    ok := true;
  }

  /** One turn of the loop. */
  method BackupTurn(b: PackBuilder, inputs: seq<FileInput>, i: nat, previous: map<Path, CatalogItem>,
                    ghost prevParts: map<Path, seq<Bytes>>, ghost base: map<BlockId, Bytes>, ghost placed: nat,
                    p: RunProgress, ghost h: History) returns (ok: bool, q: RunProgress, ghost g: History)
    requires b.Valid() && i < |inputs| && TwoAttempts(inputs) && CatalogKnown(previous, prevParts, base)
    requires InputsCovered(b.material, inputs) && PartsCovered(b.material, prevParts)
    requires Extends(base, b.session.s.actor.known) && AllPromised(b, p.items, h.parts)
    requires Accounted(inputs, previous, prevParts, p.items, h, i) && Counted(b, inputs, previous, placed, i, p)
    modifies b, b.session
    ensures b.Valid() && Extends(base, b.session.s.actor.known)
    ensures old(b.tried) <= b.tried && (old(b.Used(true)) ==> b.Used(ok))
    ensures ok ==> Accounted(inputs, previous, prevParts, q.items, g, i + 1) && AllPromised(b, q.items, g.parts)
    ensures ok ==> Counted(b, inputs, previous, placed, i + 1, q)
  {
    q, g := p, h;
    if * {
      return false, q, g;
    }
    ghost var before := TotalData(b.Placed());
    var r, saved;
    ghost var part;
    r, saved, part := BackupNext(b, inputs[i], previous, prevParts, base, p.items, h.parts);
    ok := !r.Failed?;
    if ok {
      AdvanceAccounted(inputs, previous, prevParts, p, h, i, r, saved, part);
      AdvanceCounted(inputs, previous, placed, i, p, r, saved, before, TotalData(b.Placed()));
      q, g := Advance(p, r, saved), AdvanceHistory(h, r, part, i);
    }
  }

  /** A file that was kept becomes an item; one that was unstable is counted. */
  function Advance(p: RunProgress, r: FileResult, saved: nat): RunProgress
    requires !r.Failed?
  {
    if r.Backed? then RunProgress(p.items + [r.item], p.dedup + saved, p.unstable)
    else RunProgress(p.items, p.dedup + saved, p.unstable + 1)
  }

  function AdvanceHistory(h: History, r: FileResult, part: seq<Bytes>, i: nat): History {
    if r.Backed? then History(h.parts + [part], h.origin + [i]) else h
  }

  lemma AdvanceAccounted(inputs: seq<FileInput>, previous: map<Path, CatalogItem>, prevParts: map<Path, seq<Bytes>>,
                         p: RunProgress, h: History, i: nat, r: FileResult, saved: nat, part: seq<Bytes>)
    requires i < |inputs| && TwoAttempts(inputs) && Accounted(inputs, previous, prevParts, p.items, h, i) && !r.Failed?
    requires r.Backed? ==> Genuine(inputs[i], previous, prevParts, r.item, part)
    requires r.Unstable? ==> Omitted(inputs[i], previous)
    ensures Accounted(inputs, previous, prevParts, Advance(p, r, saved).items, AdvanceHistory(h, r, part, i), i + 1)
  {
    if r.Backed? {
      AccountKept(inputs, previous, prevParts, p.items, h, i, r.item, part);
    } else {
      AccountOmitted(inputs, previous, prevParts, p.items, h, i);
    }
  }

  lemma AdvanceCounted(inputs: seq<FileInput>, previous: map<Path, CatalogItem>, placed: nat, i: nat, p: RunProgress,
                       r: FileResult, saved: nat, before: nat, after: nat)
    requires i < |inputs| && TwoAttempts(inputs) && !r.Failed? && |p.items| + p.unstable == i
    requires p.dedup + before == TotalBytes(inputs, previous, i) + placed
    requires saved + after == InputBytes(inputs[i], previous) + before
    ensures var q := Advance(p, r, saved);
            |q.items| + q.unstable == i + 1 && q.dedup + after == TotalBytes(inputs, previous, i + 1) + placed
  {
  }

  /** One turn of that loop: what was promised before stays promised, and the new item is promised too. */
  method BackupNext(b: PackBuilder, input: FileInput, previous: map<Path, CatalogItem>,
                    ghost prevParts: map<Path, seq<Bytes>>,
                    ghost base: map<BlockId, Bytes>, ghost items: seq<PendingFile>, ghost parts: seq<seq<Bytes>>)
    returns (r: FileResult, dedup: nat, ghost part: seq<Bytes>)
    requires b.Valid() && |input.attempts| == 2 && AllPromised(b, items, parts)
    requires InputCovered(b.material, input) && PartsCovered(b.material, prevParts)
    requires CatalogKnown(previous, prevParts, base) && Extends(base, b.session.s.actor.known)
    modifies b, b.session
    ensures b.Valid() && old(b.tried) <= b.tried && (old(b.Used(true)) ==> b.Used(!r.Failed?))
    ensures Extends(old(b.session.s).actor.known, b.session.s.actor.known)
    ensures r.Unstable? ==> AllPromised(b, items, parts) && Omitted(input, previous)
    ensures r.Backed? ==>
      AllPromised(b, items + [r.item], parts + [part]) && Genuine(input, previous, prevParts, r.item, part)
    ensures !r.Failed? ==> dedup + TotalData(b.Placed()) == InputBytes(input, previous) + TotalData(old(b.Placed()))
  {
    ghost var known, keys := b.session.s.actor.known, b.Keys();
    r, dedup, part := BackupOrReuse(b, input, previous, prevParts, base);
    StillPromised(known, keys, b.session.s.actor.known, b.Keys(), b.material, items, parts);
  }

  /**
    What the run wrote down is what it read: after BackupAll, every file's references resolve to READY blocks
    whose concatenation is the stream with the recorded hash.
   */
  lemma BackedUpContent(b: PackBuilder, items: seq<PendingFile>, parts: seq<seq<Bytes>>, i: nat)
    requires CollisionFree() && Inv(b.start) && Safe(b.start) && b.Honest()
    requires b.Valid() && b.pending == {} && AllPromised(b, items, parts) && i < |items|
    ensures StandForParts(b.session.s.actor.known, ResolveAll(b.ids, items[i].refs), parts[i])
    ensures items[i].fileHash == Sha256(Concat(parts[i]))
  {
    assert b.Keys() == b.ids.Keys;
    ResolvedFile(b.start, b.session.s, b.ids, items[i].refs, parts[i]);
  }

  /** Writing an item with the hash of its parts is a step, and stores just that. */
  lemma WrittenItem(s: State, path: Path, refs: seq<BlockId>, parts: seq<Bytes>, sha: Digest, size: nat)
    requires s.actor.Worker? && s.actor.draft.HasDraft? && s.actor.draft.snap in s.snaps
    requires ItemKey(s.actor.draft.snap, path) !in s.items
    requires StandForParts(s.actor.known, refs, parts) && sha == Sha256(Concat(parts))
    ensures WriteItemStep(s, path, refs, sha, size,
                          WriteItemRows(s, ItemKey(s.actor.draft.snap, path), refs, parts, sha, size))
  {
    assert PartsOf(s.actor.known, refs) == parts;
  }
}
