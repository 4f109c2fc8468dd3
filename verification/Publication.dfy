/**
  A backup run from its draft to its publication: the catalog of the previous snapshot, the file loop, the rows of
  the snapshot, the sample and the publishing transaction.
 */
module Publication {
  import opened Bytes
  import opened PackFormat
  import opened Repository
  import opened RepositorySafety
  import opened SnapshotTheorems
  import opened SnapshotDurability
  import opened Sessions
  import opened RestorePlanning
  import opened PackBuilding
  import opened BackupRuns
  import opened CatalogFold

  // ---- The snapshot's rows ---------------------------------------------------------------------

  /** The row of a pending file as the run meant it. */
  predicate RowStored(items: Items, n: SnapId, item: PendingFile, parts: seq<Bytes>) {
    var key := ItemKey(n, item.file.relativePath);
    key in items && items[key] == ItemRow(parts, item.fileHash, item.file.size)
  }

  predicate AllStored(rows: Items, n: SnapId, items: seq<PendingFile>, parts: seq<seq<Bytes>>, k: nat)
    requires k <= |items| == |parts|
  {
    forall i :: 0 <= i < k ==> RowStored(rows, n, items[i], parts[i])
  }

  /** The row has the hash and the size of the pending file. */
  predicate RowWritten(rows: Items, n: SnapId, item: PendingFile) {
    var key := ItemKey(n, item.file.relativePath);
    key in rows && rows[key].sha == item.fileHash && rows[key].size == item.file.size
  }

  /** Among the first k files. */
  predicate Listed(items: seq<PendingFile>, k: nat, path: Path)
    requires k <= |items|
  {
    exists i :: 0 <= i < k && items[i].file.relativePath == path
  }

  /** The snapshot has a row for each of the first k files, and no other that it did not have before. */
  ghost predicate AllWritten(was: Items, rows: Items, n: SnapId, items: seq<PendingFile>, k: nat)
    requires k <= |items|
  {
    && (forall i :: 0 <= i < k ==> RowWritten(rows, n, items[i]))
    && (forall key :: key in rows && key.snap == n && key !in was ==> Listed(items, k, key.path))
  }

  lemma WriteMore(was: Items, rows: Items, n: SnapId, items: seq<PendingFile>, k: nat, row: ItemRow)
    requires k < |items| && AllWritten(was, rows, n, items, k) && ItemKey(n, items[k].file.relativePath) !in rows
    requires row.sha == items[k].fileHash && row.size == items[k].file.size
    ensures AllWritten(was, rows[ItemKey(n, items[k].file.relativePath) := row], n, items, k + 1)
  {
    var more := rows[ItemKey(n, items[k].file.relativePath) := row];
    forall i | 0 <= i < k + 1
      ensures RowWritten(more, n, items[i])
    {
      assert i < k ==> RowWritten(rows, n, items[i]);
    }
    forall key | key in more && key.snap == n && key !in was
      ensures Listed(items, k + 1, key.path)
    {
      assert key in rows ==> Listed(items, k, key.path);
    }
  }

  lemma StoreMore(rows: Items, n: SnapId, items: seq<PendingFile>, parts: seq<seq<Bytes>>, k: nat)
    requires k < |items| == |parts| && AllStored(rows, n, items, parts, k)
    requires ItemKey(n, items[k].file.relativePath) !in rows
    ensures var row := ItemRow(parts[k], items[k].fileHash, items[k].file.size);
            AllStored(rows[ItemKey(n, items[k].file.relativePath) := row], n, items, parts, k + 1)
  {
    var row := ItemRow(parts[k], items[k].fileHash, items[k].file.size);
    var more := rows[ItemKey(n, items[k].file.relativePath) := row];
    forall i | 0 <= i < k + 1
      ensures RowStored(more, n, items[i], parts[i])
    {
      assert i < k ==> RowStored(rows, n, items[i], parts[i]);
    }
  }

  /** The history of a row: what its blocks stand for. */
  function HistoryOf(known: map<BlockId, Bytes>, refs: seq<BlockId>): seq<Bytes> {
    seq(|refs|, i requires 0 <= i < |refs| => if refs[i] in known then known[refs[i]] else [])
  }

  predicate AreIds(refs: seq<Bytes>) {
    forall i :: 0 <= i < |refs| ==> |refs[i]| == 36
  }

  /** The foreign key on blocks. */
  predicate Referable(s: State, refs: seq<BlockId>) {
    forall i :: 0 <= i < |refs| ==> refs[i] in s.blocks
  }

  lemma WriteStep(start: State, s: State, path: Path, refs: seq<BlockId>, parts: seq<Bytes>, sha: Digest, size: nat)
    requires Evolves(start, s) && s.actor.Worker? && s.actor.draft.HasDraft? && s.actor.draft.snap in s.snaps
    requires ItemKey(s.actor.draft.snap, path) !in s.items
    requires StandForParts(s.actor.known, refs, parts) && sha == Sha256(Concat(parts))
    ensures HistoryOf(s.actor.known, refs) == parts
    ensures Evolves(start, WriteItemRows(s, ItemKey(s.actor.draft.snap, path), refs, parts, sha, size))
  {
    WrittenItem(s, path, refs, parts, sha, size);
    var t := WriteItemRows(s, ItemKey(s.actor.draft.snap, path), refs, parts, sha, size);
    EvolvesStep(start, s, WriteItem(path, refs, sha, size), t);
  }

  /** The builder's run is ready to write down what it promised. */
  ghost predicate ReadyToWrite(b: PackBuilder, n: SnapId, items: seq<PendingFile>, parts: seq<seq<Bytes>>)
    reads b, b.session
  {
    && b.Valid() && b.pending == {} && AllPromised(b, items, parts) && Inv(b.start) && Safe(b.start)
    && b.start.actor.draft == HasDraft(n) && n in b.start.snaps
  }

  /** The rows of other snapshots are as they were. */
  ghost predicate OthersKept(items: Items, items': Items, links: Links, links': Links, n: SnapId) {
    && (forall i :: i in items && i.snap != n ==> i in items' && items'[i] == items[i])
    && (forall i :: i in items' && i.snap != n ==> i in items)
    && (forall k :: k in links && k.item.snap != n ==> k in links' && links'[k] == links[k])
    && (forall k :: k in links' && k.item.snap != n ==> k in links)
  }

  lemma WriteKeepsOthers(s: State, items: Items, links: Links, item: ItemKey, refs: seq<BlockId>, parts: seq<Bytes>,
                         sha: Digest, size: nat)
    requires OthersKept(items, s.items, links, s.links, item.snap)
    ensures var t := WriteItemRows(s, item, refs, parts, sha, size);
            OthersKept(items, t.items, links, t.links, item.snap)
  {
  }

  /** The first k files are written, and nothing but items and links has changed. */
  ghost predicate Written(b: PackBuilder, n: SnapId, items: seq<PendingFile>, parts: seq<seq<Bytes>>, k: nat, t: State)
    requires k <= |items| == |parts|
    reads b, b.session
  {
    && t == b.session.s.(items := t.items, links := t.links)
    && OthersKept(b.session.s.items, t.items, b.session.s.links, t.links, n)
    && AllWritten(b.session.s.items, t.items, n, items, k)
    && (b.Honest() ==> Evolves(b.start, t) && AllStored(t.items, n, items, parts, k))
  }

  lemma WriteNext(b: PackBuilder, n: SnapId, items: seq<PendingFile>, parts: seq<seq<Bytes>>, k: nat, s: State,
                  refs: seq<BlockId>)
    requires CollisionFree() && ReadyToWrite(b, n, items, parts) && k < |items| && Written(b, n, items, parts, k, s)
    requires refs == ResolveAll(b.ids, items[k].refs) && ItemKey(n, items[k].file.relativePath) !in s.items
    ensures Written(b, n, items, parts, k + 1, WriteItemRows(s, ItemKey(n, items[k].file.relativePath), refs,
                      HistoryOf(s.actor.known, refs), items[k].fileHash, items[k].file.size))
  {
    WriteKeepsOthers(s, b.session.s.items, b.session.s.links, ItemKey(n, items[k].file.relativePath), refs,
                     HistoryOf(s.actor.known, refs), items[k].fileHash, items[k].file.size);
    WriteMore(b.session.s.items, s.items, n, items, k,
              ItemRow(HistoryOf(s.actor.known, refs), items[k].fileHash, items[k].file.size));
    if b.Honest() {
      NextContent(b, n, items, parts, k);
      WriteStep(b.start, s, items[k].file.relativePath, refs, parts[k], items[k].fileHash, items[k].file.size);
      StoreMore(s.items, n, items, parts, k);
    }
  }

  lemma NextContent(b: PackBuilder, n: SnapId, items: seq<PendingFile>, parts: seq<seq<Bytes>>, k: nat)
    requires CollisionFree() && ReadyToWrite(b, n, items, parts) && k < |items| && b.Honest()
    ensures StandForParts(b.session.s.actor.known, ResolveAll(b.ids, items[k].refs), parts[k])
    ensures items[k].fileHash == Sha256(Concat(parts[k]))
    ensures b.session.s.actor.draft == HasDraft(n) && n in b.session.s.snaps
  {
    BackedUpContent(b, items, parts, k);
  }

  /**
    BatchCreateBackupSnapshotItemsAndBlocksContext: one row for each file with its resolved blocks, or none at all if
    a path repeats or a block does not exist. The hash stored is the one computed over the stream.
   */
  method WriteItems(b: PackBuilder, n: SnapId, items: seq<PendingFile>, ghost parts: seq<seq<Bytes>>) returns (ok: bool)
    requires CollisionFree() && ReadyToWrite(b, n, items, parts)
    modifies b.session
    ensures !ok ==> b.session.s == old(b.session.s)
    ensures ok ==> b.session.s == old(b.session.s).(items := b.session.s.items, links := b.session.s.links)
    ensures OthersKept(old(b.session.s).items, b.session.s.items, old(b.session.s).links, b.session.s.links, n)
    ensures ok ==> AllWritten(old(b.session.s).items, b.session.s.items, n, items, |items|)
    ensures ok && b.Honest() ==> Evolves(b.start, b.session.s)
    ensures ok && b.Honest() ==> AllStored(b.session.s.items, n, items, parts, |items|)
  {
    var t, k := b.session.s, 0;
    while k < |items|
      invariant k <= |items| && ReadyToWrite(b, n, items, parts) && b.session.s == old(b.session.s)
      invariant Written(b, n, items, parts, k, t)
    {
      var resolved, key := ResolveAll(b.ids, items[k].refs), ItemKey(n, items[k].file.relativePath);
      if key in t.items || !AreIds(resolved) || !Referable(t, resolved) {
        return false;
      }
      WriteNext(b, n, items, parts, k, t, resolved);
      t := WriteItemRows(t, key, resolved, HistoryOf(t.actor.known, resolved), items[k].fileHash, items[k].file.size);
      k := k + 1;
    }
    b.session.s := t;
    ok := true;
  }

  // ---- The sample ------------------------------------------------------------------------------

  lemma {:induction false} Least(packs: set<PackId>) returns (p: PackId)
    requires packs != {}
    ensures p in packs && forall q :: q in packs ==> p <= q
    decreases |packs|
  {
    var x :| x in packs;
    p := x;
    var rest := packs - {x};
    if rest != {} {
      var m := Least(rest);
      p := if m < x then m else x;
    }
    forall q | q in packs
      ensures p <= q
    {
      assert q == x || q in rest;
    }
  }

  /** ListBackupSnapshotPacksContext: the packs in the order of their IDs. */
  method ListPacks(packs: set<PackId>) returns (order: seq<PackId>)
    ensures InOrder(order, packs)
  {
    order := [];
    var left := packs;
    while left != {}
      invariant left <= packs && (forall p :: p in order ==> p in packs)
      invariant (forall p :: p in packs - left ==> p in order)
      invariant forall i, j :: 0 <= i < j < |order| ==> order[i] < order[j]
      invariant forall p, q :: p in order && q in left ==> p < q
    {
      ghost var least := Least(left);
      var p :| p in left && forall q :: q in left ==> p <= q;
      assert forall i :: 0 <= i < |order| ==> order[i] in order;
      order, left := order + [p], left - {p};
    }
  }

  lemma RotatedAt(order: seq<PackId>, start: nat, i: nat)
    requires start < |order| && i < |order|
    ensures Rotated(order, start)[i] == order[(start + i) % |order|]
  {
    WrapOnce(start + i, |order|);
  }

  lemma WrapOnce(a: nat, n: nat)
    requires 0 < n && a < 2 * n
    ensures a % n == if a < n then a else a - n
  {
    if a >= n {
      assert a == n * 1 + (a - n);
    }
  }

  /** One pack of the sample, read and validated in full. */
  method CheckPack(session: Session, p: PackId) returns (ok: bool)
    requires p in session.s.packs
    ensures ok ==> SoundPack(session.s.packs, session.s.objects, p)
  {
    var row := session.s.packs[p];
    if row.state != Ready {
      return false;
    }
    var remote := session.Fetch(row.sha);
    if remote.Absent? || |remote.bytes| != row.size {
      return false;
    }
    var validated := ValidatePack(remote.bytes, row.sha);
    ok := validated.Validated?;
  }

  lemma SampleSkip(packs: Packs, objects: map<Digest, Bytes>, order: seq<PackId>, i: nat, remaining: nat)
    requires i < |order| && order[i] in packs
    requires if packs[order[i]].size > remaining then SamplePasses(packs, objects, order[i + 1..], remaining)
             else && SoundPack(packs, objects, order[i])
                  && (packs[order[i]].size < remaining ==>
                        SamplePasses(packs, objects, order[i + 1..], remaining - packs[order[i]].size))
    ensures SamplePasses(packs, objects, order[i..], remaining)
  {
    assert order[i..][0] == order[i] && order[i..][1..] == order[i + 1..];
  }

  /**
    verifySnapshotSample: from a random pack on, cyclically, every pack that fits the remaining budget is validated.
    The first that fails is the one to be marked DAMAGED.
   */
  method VerifySample(session: Session, n: SnapId, random: nat)
    returns (ok: bool, order: seq<PackId>, start: nat, bad: PackId)
    ensures ok ==> Sampled(session.s, n, order, start)
    ensures !ok ==> bad in UsedPacks(session.s.links, session.s.blocks, n)
  {
    order := ListPacks(UsedPacks(session.s.links, session.s.blocks, n));
    start, bad := 0, 0;
    if |order| == 0 {
      return true, order, start, bad;
    }
    start := random % |order|;
    ok, bad := SampleFrom(session, order, start);
  }

  method SampleFrom(session: Session, order: seq<PackId>, start: nat) returns (ok: bool, bad: PackId)
    requires start < |order|
    ensures ok ==> SamplePasses(session.s.packs, session.s.objects, Rotated(order, start), SAMPLE_BUDGET)
    ensures !ok ==> bad in order
  {
    ghost var packs, objects, cycle := session.s.packs, session.s.objects, Rotated(order, start);
    bad := 0;
    var remaining: nat, step := SAMPLE_BUDGET, 0;
    while step < |order|
      invariant step <= |order|
      invariant SamplePasses(packs, objects, cycle[step..], remaining) ==>
        SamplePasses(packs, objects, cycle, SAMPLE_BUDGET)
    {
      bad := order[(start + step) % |order|];
      RotatedAt(order, start, step);
      if bad !in session.s.packs {
        return false, bad;
      }
      var size := session.s.packs[bad].size;
      if size <= remaining {
        ok := CheckPack(session, bad);
        if !ok {
          return;
        }
        assert SoundPack(packs, objects, cycle[step]);
      }
      if SamplePasses(packs, objects, cycle[step + 1..], if size <= remaining then remaining - size else remaining) {
        SampleSkip(packs, objects, cycle, step, remaining);
      }
      if size == remaining {
        SampleSkip(packs, objects, cycle, step, remaining);
        return true, bad;
      }
      remaining := if size <= remaining then remaining - size else remaining;
      step := step + 1;
    }
    ok := true;
  }

  // ---- The run ---------------------------------------------------------------------------------

  /** The latest visible snapshot and the rows the join yields for it, if there is one. */
  datatype Previous = NoPrevious | Previous(snap: SnapId, rows: seq<JoinRow>)

  ghost predicate IsLatest(s: State, prev: Previous) {
    match prev
    case NoPrevious => forall m :: m in s.snaps ==> !Visible(s.snaps, m)
    case Previous(n, rows) =>
      && Visible(s.snaps, n) && RowsOfSnapshot(s, n, rows)
      && forall m :: m in s.snaps && Visible(s.snaps, m) ==> s.snaps[m].created <= s.snaps[n].created
  }

  /** The file was unchanged since the previous snapshot and keeps the content recorded there. */
  ghost predicate Unchanged(past: Items, prev: Previous, input: FileInput, parts: seq<Bytes>) {
    prev.Previous? &&
      var key, group := ItemKey(prev.snap, input.file.relativePath), Group(prev.rows, input.file.relativePath);
      && key in past && parts == past[key].parts && past[key].size == input.file.size
      && Admissible(group) && group[0].mtime == At(input.file.mtime) && SameSource(input.file, input.inspected)
  }

  /** The snapshot holds the file: with what a stable attempt read, or unchanged. */
  ghost predicate HoldsFile(past: Items, prev: Previous, items: Items, n: SnapId, input: FileInput) {
    exists parts :: HoldsParts(past, prev, items, n, input, parts)
  }

  ghost predicate HoldsParts(past: Items, prev: Previous, items: Items, n: SnapId, input: FileInput,
                             parts: seq<Bytes>) {
    var key := ItemKey(n, input.file.relativePath);
    && key in items && items[key] == ItemRow(parts, Sha256(Concat(parts)), input.file.size)
    && (FromStableAttempt(input.file, input.attempts, Concat(parts)) || Unchanged(past, prev, input, parts))
  }

  /** Neither attempt saw the file hold still. */
  predicate NeverStable(input: FileInput)
    requires |input.attempts| == 2
  {
    !Stable(input.file, input.attempts[0]) && !Stable(input.file, input.attempts[1])
  }

  /** CreateBackupSnapshotDraftContext: a PUBLISHING row under a new ID, created last. */
  method CreateDraft(session: Session, n: SnapId, created: nat) returns (ok: bool)
    requires session.s.actor.Worker?
    modifies session
    ensures ok <==> n !in old(session.s).snaps && forall m :: m in old(session.s).snaps ==>
      old(session.s).snaps[m].created < created
    ensures ok ==> CreateDraftStep(old(session.s), n, created, session.s)
    ensures !ok ==> session.s == old(session.s)
  {
    var s := session.s;
    ok := n !in s.snaps && forall m :: m in s.snaps ==> s.snaps[m].created < created;
    if ok {
      session.s := s.(snaps := s.snaps[n := SnapRow(Publishing, created)], actor := s.actor.(draft := HasDraft(n)));
    }
  }

  /** What the file loop may rely on of the catalog. */
  ghost predicate CatalogFrom(past: Items, prev: Previous, catalog: map<Path, CatalogItem>) {
    match prev
    case NoPrevious => catalog == map[]
    case Previous(n, rows) =>
      forall path :: path in catalog ==>
        && ItemKey(n, path) in past && past[ItemKey(n, path)].size == catalog[path].size
        && Admissible(Group(rows, path)) && EntryOf(catalog[path], Group(rows, path))
  }

  function PreviousParts(past: Items, prev: Previous, catalog: map<Path, CatalogItem>): map<Path, seq<Bytes>> {
    if prev.NoPrevious? then map[] else PartsOfSnapshot(past, prev.snap, catalog)
  }

  /** The catalog of the previous snapshot; reading its rows tells the worker what the blocks stand for. */
  method LoadPrevious(session: Session, prev: Previous) returns (catalog: map<Path, CatalogItem>)
    requires CollisionFree() && session.s.actor.Worker? && Inv(session.s)
    requires prev.Previous? ==> Visible(session.s.snaps, prev.snap) && RowsOfSnapshot(session.s, prev.snap, prev.rows)
    modifies session
    ensures Evolves(old(session.s), session.s) && session.s == old(session.s).(actor := session.s.actor)
    ensures session.s.actor.Worker? && session.s.actor.draft == old(session.s).actor.draft
    ensures KnownMatch(session.s.actor.known, session.s.blocks)
    ensures CatalogKnown(catalog, PreviousParts(session.s.items, prev, catalog), session.s.actor.known)
    ensures CatalogFrom(session.s.items, prev, catalog)
  {
    catalog := map[];
    if prev.NoPrevious? {
      EvolvesRefl(session.s);
      return;
    }
    catalog := LoadCatalog(prev.rows);
    LearnCatalog(session.s, prev.snap, prev.rows, catalog);
    session.s := Knowing(session.s, KnownFromRows(session.s, prev.snap, prev.rows));
  }

  /** PublishBackupSnapshotAndFinalizeContext: only a draft that is still there, in a job that is not being deleted. */
  method Publish(session: Session, n: SnapId, partial: bool, ghost order: seq<PackId>, ghost start: nat)
    returns (ok: bool)
    requires session.s.actor.Worker? && session.s.actor.draft == HasDraft(n) && Sampled(session.s, n, order, start)
    modifies session
    ensures ok ==> PublishStep(old(session.s), partial, order, start, session.s)
    ensures !ok ==> session.s == old(session.s)
  {
    var s := session.s;
    if s.deleting || n !in s.snaps || s.snaps[n].state != Publishing {
      return false;
    }
    session.s := s.(snaps := s.snaps[n := s.snaps[n].(state := if partial then Partial else Available)],
                    actor := s.actor.(draft := NoDraft));
    ok := true;
  }

  /** No snapshot becomes visible. */
  predicate NothingNew(s: State, t: State) {
    forall m :: m in t.snaps && Visible(t.snaps, m) ==> Visible(s.snaps, m)
  }

  /** A pack that fails the sample is marked DAMAGED, and the run ends. */
  method Sample(session: Session, n: SnapId, random: nat) returns (ok: bool, order: seq<PackId>, start: nat)
    requires session.s.actor.Worker?
    modifies session
    ensures ok ==> session.s == old(session.s) && Sampled(session.s, n, order, start)
    ensures !ok && session.s != old(session.s) ==> exists p :: MarkDamagedStep(old(session.s), p, session.s)
  {
    var bad;
    ok, order, start, bad := VerifySample(session, n, random);
    if !ok && bad in session.s.packs {
      ghost var before := session.s;
      session.s := MarkPackDamaged(session.s.(actor := Idle), bad);
      assert MarkDamagedStep(before, bad, session.s);
    }
  }

  lemma DamageShowsNone(s: State, p: PackId, t: State)
    requires MarkDamagedStep(s, p, t)
    ensures NothingNew(s, t)
  {
  }

  /** What a run leaves of the repository, whatever becomes of its own snapshot n. */
  ghost predicate Framed(s: State, t: State, n: SnapId) {
    && t.deleting == s.deleting && OthersKept(s.items, t.items, s.links, t.links, n)
    && KeptRows(s.blocks, t.blocks) && s.objects.Keys <= t.objects.Keys
    && (forall p :: p in s.packs ==> p in t.packs && t.packs[p].sha == s.packs[p].sha)
    && (forall m :: m in s.snaps && m != n ==> m in t.snaps && t.snaps[m].created == s.snaps[m].created)
  }

  /** A published run leaves the packs and the other snapshots themselves as they were. */
  ghost predicate FramedPublished(s: State, t: State, n: SnapId) {
    KeptRows(s.packs, t.packs) && forall m :: m in s.snaps && m != n ==> m in t.snaps && t.snaps[m] == s.snaps[m]
  }

  lemma FramedTrans(s: State, t: State, u: State, n: SnapId)
    requires Framed(s, t, n) && Framed(t, u, n)
    ensures Framed(s, u, n)
    ensures FramedPublished(s, t, n) && FramedPublished(t, u, n) ==> FramedPublished(s, u, n)
  {
  }

  /** What a run leaves of the repository, by its outcome. */
  ghost predicate Leaves(s: State, t: State, n: SnapId, ok: bool) {
    Framed(s, t, n) && if ok then FramedPublished(s, t, n) else NothingNew(s, t)
  }

  lemma LeavesTrans(s: State, drafted: State, t: State, n: SnapId, ok: bool)
    requires Leaves(s, drafted, n, true) && NothingNew(s, drafted) && Leaves(drafted, t, n, ok)
    ensures Leaves(s, t, n, ok)
  {
    FramedTrans(s, drafted, t, n);
  }

  lemma LeavesSame(s: State, n: SnapId)
    ensures Leaves(s, s, n, false)
  {
  }

  lemma DamageFramed(s: State, p: PackId, t: State, n: SnapId)
    requires MarkDamagedStep(s, p, t)
    ensures Framed(s, t, n)
  {
  }

  /** The end of execute: the rows, the sample, the publication. A run that fails here publishes nothing. */
  method Finish(b: PackBuilder, n: SnapId, items: seq<PendingFile>, ghost parts: seq<seq<Bytes>>, partial: bool,
                random: nat)
    returns (ok: bool)
    requires CollisionFree() && ReadyToWrite(b, n, items, parts)
    modifies b.session
    ensures Leaves(old(b.session.s), b.session.s, n, ok) && b.session.s.objects == old(b.session.s).objects
    ensures ok ==> n in b.session.s.snaps && b.session.s.snaps[n].state == if partial then Partial else Available
    ensures ok ==> AllWritten(old(b.session.s).items, b.session.s.items, n, items, |items|)
    ensures b.Honest() ==> Evolves(b.start, b.session.s)
    ensures ok && b.Honest() ==> AllStored(b.session.s.items, n, items, parts, |items|)
  {
    ok := WriteItems(b, n, items, parts);
    if !ok {
      return;
    }
    ghost var written := b.session.s;
    var order, start;
    ok, order, start := Sample(b.session, n, random);
    if !ok {
      if b.session.s != written {
        ghost var p :| MarkDamagedStep(written, p, b.session.s);
        DamageShowsNone(written, p, b.session.s);
        DamageFramed(written, p, b.session.s, n);
        if b.Honest() {
          EvolvesStep(b.start, written, MarkDamaged(p), b.session.s);
        }
      }
      return;
    }
    ok := Publish(b.session, n, partial, order, start);
    if ok && b.Honest() {
      EvolvesStep(b.start, written, Step.Publish(partial, order, start), b.session.s);
    }
  }

  /** Every input is in the snapshot, or was stable in neither attempt. */
  ghost predicate AllHeld(past: Items, prev: Previous, items: Items, n: SnapId, inputs: seq<FileInput>)
    requires TwoAttempts(inputs)
  {
    forall j :: 0 <= j < |inputs| ==> NeverStable(inputs[j]) || HoldsFile(past, prev, items, n, inputs[j])
  }

  lemma ItemHolds(past: Items, prev: Previous, catalog: map<Path, CatalogItem>, items: Items, n: SnapId,
                  input: FileInput, item: PendingFile, parts: seq<Bytes>)
    requires CatalogFrom(past, prev, catalog)
    requires Genuine(input, catalog, PreviousParts(past, prev, catalog), item, parts)
    requires RowStored(items, n, item, parts) && item.fileHash == Sha256(Concat(parts))
    ensures HoldsFile(past, prev, items, n, input)
  {
    assert HoldsParts(past, prev, items, n, input, parts);
  }

  /** The run's items hold every input that was not left out; if none was, they hold all. */
  lemma ItemsHold(past: Items, prev: Previous, catalog: map<Path, CatalogItem>, items: Items, n: SnapId,
                  inputs: seq<FileInput>, files: seq<PendingFile>, h: History)
    requires TwoAttempts(inputs) && CatalogFrom(past, prev, catalog)
    requires Accounted(inputs, catalog, PreviousParts(past, prev, catalog), files, h, |inputs|)
    requires AllStored(items, n, files, h.parts, |files|)
    requires forall k :: 0 <= k < |files| ==> files[k].fileHash == Sha256(Concat(h.parts[k]))
    ensures AllHeld(past, prev, items, n, inputs)
    ensures |files| == |inputs| ==> forall j :: 0 <= j < |inputs| ==> HoldsFile(past, prev, items, n, inputs[j])
  {
    forall k | 0 <= k < |files|
      ensures HoldsFile(past, prev, items, n, inputs[h.origin[k]])
    {
      assert RowStored(items, n, files[k], h.parts[k]);
      ItemHolds(past, prev, catalog, items, n, inputs[h.origin[k]], files[k], h.parts[k]);
    }
    if |files| == |inputs| {
      forall j | 0 <= j < |inputs|
        ensures HoldsFile(past, prev, items, n, inputs[j])
      {
        AscendsExactly(h.origin, j);
        assert HoldsFile(past, prev, items, n, inputs[h.origin[j]]);
      }
    }
  }

  /** The snapshot names the file by the hash of what a stable attempt read, or of the unchanged content. */
  ghost predicate NamesFile(past: Items, prev: Previous, items: Items, n: SnapId, input: FileInput) {
    exists parts :: NamesParts(past, prev, items, n, input, parts)
  }

  ghost predicate NamesParts(past: Items, prev: Previous, items: Items, n: SnapId, input: FileInput,
                             parts: seq<Bytes>) {
    var key := ItemKey(n, input.file.relativePath);
    && key in items && items[key].sha == Sha256(Concat(parts)) && items[key].size == input.file.size
    && (FromStableAttempt(input.file, input.attempts, Concat(parts)) || Unchanged(past, prev, input, parts))
  }

  ghost predicate IsInput(inputs: seq<FileInput>, path: Path) {
    exists j :: 0 <= j < |inputs| && inputs[j].file.relativePath == path
  }

  /** The published names, whatever the hash collides with: every input that was not left out, and nothing else. */
  ghost predicate Named(past: Items, prev: Previous, items: Items, n: SnapId, inputs: seq<FileInput>)
    requires TwoAttempts(inputs)
  {
    && (forall j :: 0 <= j < |inputs| ==> NeverStable(inputs[j]) || NamesFile(past, prev, items, n, inputs[j]))
    && (forall key :: key in items && key.snap == n && key !in past ==> IsInput(inputs, key.path))
  }

  /** Every input is an item or counted as unstable, and none is counted unless one never held still. */
  ghost predicate Counted(inputs: seq<FileInput>, kept: nat, unstable: nat)
    requires TwoAttempts(inputs)
  {
    kept + unstable == |inputs| && (unstable > 0 ==> exists j :: 0 <= j < |inputs| && NeverStable(inputs[j]))
  }

  lemma ItemsCounted(inputs: seq<FileInput>, catalog: map<Path, CatalogItem>, prevParts: map<Path, seq<Bytes>>,
                     p: RunProgress, h: History)
    requires TwoAttempts(inputs) && Accounted(inputs, catalog, prevParts, p.items, h, |inputs|)
    requires |p.items| + p.unstable == |inputs|
    ensures Counted(inputs, |p.items|, p.unstable)
  {
    if p.unstable > 0 {
      var j := AscendsSkips(h.origin, |inputs|);
      assert Omitted(inputs[j], catalog);
    }
  }

  lemma ItemsNamed(past: Items, prev: Previous, catalog: map<Path, CatalogItem>, items: Items, n: SnapId,
                   inputs: seq<FileInput>, files: seq<PendingFile>, h: History)
    requires TwoAttempts(inputs) && CatalogFrom(past, prev, catalog)
    requires Accounted(inputs, catalog, PreviousParts(past, prev, catalog), files, h, |inputs|)
    requires AllWritten(past, items, n, files, |files|)
    requires forall k :: 0 <= k < |files| ==> files[k].fileHash == Sha256(Concat(h.parts[k]))
    ensures Named(past, prev, items, n, inputs)
  {
    forall k | 0 <= k < |files|
      ensures NamesFile(past, prev, items, n, inputs[h.origin[k]]) && IsInput(inputs, files[k].file.relativePath)
    {
      assert RowWritten(items, n, files[k]);
      ItemNames(past, prev, catalog, items, n, inputs[h.origin[k]], files[k], h.parts[k]);
      assert inputs[h.origin[k]].file.relativePath == files[k].file.relativePath;
    }
  }

  lemma ItemNames(past: Items, prev: Previous, catalog: map<Path, CatalogItem>, items: Items, n: SnapId,
                  input: FileInput, item: PendingFile, parts: seq<Bytes>)
    requires CatalogFrom(past, prev, catalog)
    requires Genuine(input, catalog, PreviousParts(past, prev, catalog), item, parts)
    requires RowWritten(items, n, item) && item.fileHash == Sha256(Concat(parts))
    ensures NamesFile(past, prev, items, n, input)
  {
    assert NamesParts(past, prev, items, n, input, parts);
  }

  /** A draft changes nothing but its own row. */
  lemma Drafted(s: State, n: SnapId, created: nat, t: State, prev: Previous)
    requires CollisionFree() && Inv(s) && Safe(s) && IsLatest(s, prev) && CreateDraftStep(s, n, created, t)
    ensures Evolves(s, t) && Inv(t) && Safe(t) && NothingNew(s, t) && t.items == s.items && t.links == s.links
    ensures prev.Previous? ==> Visible(t.snaps, prev.snap) && RowsOfSnapshot(t, prev.snap, prev.rows)
  {
    EvolvesRefl(s);
    EvolvesStep(s, s, Step.CreateDraft(n, created), t);
    EvolvesKeeps(s, t);
    if prev.Previous? {
      SameRows(s, t, prev.snap, prev.rows);
    }
  }

  lemma SameRows(s: State, t: State, n: SnapId, rows: seq<JoinRow>)
    requires RowsOfSnapshot(s, n, rows) && t.items == s.items && t.links == s.links
    ensures RowsOfSnapshot(t, n, rows)
  {
    forall path | Group(rows, path) != []
      ensures ItemKey(n, path) in t.items && RowsFor(t, ItemKey(n, path), Group(rows, path))
    {
      assert RowsFor(s, ItemKey(n, path), Group(rows, path));
    }
  }

  /** The published rows: every input that was not left out, and all of them if none was. */
  ghost predicate Outcome(past: Items, prev: Previous, items: Items, n: SnapId, inputs: seq<FileInput>, p: RunProgress)
    requires TwoAttempts(inputs)
  {
    && AllHeld(past, prev, items, n, inputs)
    && (p.unstable == 0 ==> forall j :: 0 <= j < |inputs| ==> HoldsFile(past, prev, items, n, inputs[j]))
  }

  /** A block of the stream of some attempt. */
  ghost predicate FromInputs(inputs: seq<FileInput>, x: Bytes) {
    exists i, k :: 0 <= i < |inputs| && 0 <= k < |inputs[i].attempts| && IsBlock(inputs[i].attempts[k].stream, x)
  }

  /** A part that the previous snapshot recorded. */
  ghost predicate FromPrevious(past: Items, prev: Previous, x: Bytes) {
    prev.Previous? && exists path :: ItemKey(prev.snap, path) in past && x in past[ItemKey(prev.snap, path)].parts
  }

  /** All a run works with. */
  ghost function RunMaterial(inputs: seq<FileInput>, past: Items, prev: Previous): iset<Bytes> {
    iset x | FromInputs(inputs, x) || FromPrevious(past, prev, x)
  }

  lemma MaterialCovers(inputs: seq<FileInput>, past: Items, prev: Previous, catalog: map<Path, CatalogItem>)
    ensures InputsCovered(RunMaterial(inputs, past, prev), inputs)
    ensures PartsCovered(RunMaterial(inputs, past, prev), PreviousParts(past, prev, catalog))
  {
    var material, parts := RunMaterial(inputs, past, prev), PreviousParts(past, prev, catalog);
    forall i, k, x | 0 <= i < |inputs| && 0 <= k < |inputs[i].attempts| && IsBlock(inputs[i].attempts[k].stream, x)
      ensures x in material
    {
      assert FromInputs(inputs, x);
    }
    forall path, x | path in parts && x in parts[path]
      ensures x in material
    {
      assert FromPrevious(past, prev, x);
    }
  }

  /** The blocks of the inputs, and the packs the run made of them, lie in the collision-free data. */
  ghost predicate InPlayRun(inputs: seq<FileInput>, b: PackBuilder)
    reads b
  {
    && (forall x :: FromInputs(inputs, x) ==> x in InPlay)
    && (forall es :: es in b.tried ==> PackBytes(es) in InPlay)
  }

  /** What a visible snapshot recorded is in play already. */
  lemma PreviousInPlay(s: State, prev: Previous, x: Bytes)
    requires Inv(s) && FromPrevious(s.items, prev, x) && Visible(s.snaps, prev.snap)
    ensures x in InPlay
  {
    var path :| ItemKey(prev.snap, path) in s.items && x in s.items[ItemKey(prev.snap, path)].parts;
    var key := ItemKey(prev.snap, path);
    var i :| 0 <= i < |s.items[key].parts| && s.items[key].parts[i] == x;
    assert Kept(s.snaps, key.snap) && Link(key, i) in s.links;
    assert StandsFor(s.blocks, s.links[Link(key, i)], s.items[key].parts[i]);
  }

  lemma RunIsHonest(s: State, inputs: seq<FileInput>, prev: Previous, b: PackBuilder)
    requires Inv(s) && (prev.Previous? ==> Visible(s.snaps, prev.snap))
    requires b.material == RunMaterial(inputs, s.items, prev) && InPlayRun(inputs, b)
    ensures b.Honest()
  {
    forall x | x in b.material
      ensures x in InPlay
    {
      if FromPrevious(s.items, prev, x) {
        PreviousInPlay(s, prev, x);
      }
    }
  }

  /** The builder worked with nothing but the run's material, and uploaded only what it recorded or still holds. */
  ghost predicate Accountable(b: PackBuilder, inputs: seq<FileInput>, past: Items, prev: Previous, ok: bool)
    reads b
  {
    b.material == RunMaterial(inputs, past, prev) && b.Sourced() && b.Used(ok)
  }

  /** The store and the catalog account for the builder's packs. */
  ghost predicate Traced(b: PackBuilder, objects: map<Digest, Bytes>, t: State, ok: bool)
    reads b
  {
    ObjectsKept(objects, t.objects, b.tried) && (ok ==> HaveRows(t.packs, b.flushed))
  }

  lemma StillTraced(b: PackBuilder, objects: map<Digest, Bytes>, s: State, t: State, n: SnapId, ok: bool)
    requires Traced(b, objects, s, true) && Leaves(s, t, n, ok) && t.objects == s.objects
    ensures Traced(b, objects, t, ok)
  {
    if ok {
      forall es | es in b.flushed
        ensures HasRow(t.packs, es)
      {
        var p :| p in s.packs && s.packs[p] == PackRow(Sha256(PackBytes(es)), Ready, EncodedSize(es));
        assert t.packs[p] == s.packs[p];
      }
    }
  }

  lemma BuilderFramed(b: PackBuilder, n: SnapId)
    requires b.Valid()
    ensures Leaves(b.start, b.session.s, n, true) && NothingNew(b.start, b.session.s)
    ensures Traced(b, b.start.objects, b.session.s, true)
  {
  }

  /** The file loop and the end of the run, for a builder that has not seen a file yet. */
  method Transfer(b: PackBuilder, n: SnapId, prev: Previous, catalog: map<Path, CatalogItem>, inputs: seq<FileInput>,
                  random: nat) returns (ok: bool, p: RunProgress)
    requires CollisionFree() && b.Valid() && Inv(b.start) && Safe(b.start) && b.session.s == b.start
    requires b.start.actor.draft == HasDraft(n) && n in b.start.snaps && TwoAttempts(inputs)
    requires CatalogFrom(b.start.items, prev, catalog) && Accountable(b, inputs, b.start.items, prev, true)
    requires CatalogKnown(catalog, PreviousParts(b.start.items, prev, catalog), b.start.actor.known)
    modifies b, b.session
    ensures Accountable(b, inputs, b.start.items, prev, ok) && Traced(b, b.start.objects, b.session.s, ok)
    ensures Leaves(b.start, b.session.s, n, ok)
    ensures ok ==> Counted(inputs, |p.items|, p.unstable) && Named(b.start.items, prev, b.session.s.items, n, inputs)
    ensures ok ==> n in b.session.s.snaps && b.session.s.snaps[n].state == if p.unstable > 0 then Partial else Available
    ensures b.Honest() ==> Evolves(b.start, b.session.s)
    ensures ok && b.Honest() ==> Outcome(b.start.items, prev, b.session.s.items, n, inputs, p)
  {
    ghost var h;
    MaterialCovers(inputs, b.start.items, prev, catalog);
    ok, p, h := BackupAll(b, inputs, catalog, PreviousParts(b.start.items, prev, catalog));
    BuilderFramed(b, n);
    if !ok {
      return;
    }
    HashesPromised(b, p.items, h.parts);
    ghost var transferred := b.session.s;
    ok := Finish(b, n, p.items, h.parts, p.unstable > 0, random);
    LeavesTrans(b.start, transferred, b.session.s, n, ok);
    StillTraced(b, b.start.objects, transferred, b.session.s, n, ok);
    if ok {
      ItemsCounted(inputs, catalog, PreviousParts(b.start.items, prev, catalog), p, h);
      ItemsNamed(b.start.items, prev, catalog, b.session.s.items, n, inputs, p.items, h);
    }
    if ok && b.Honest() {
      ItemsHold(b.start.items, prev, catalog, b.session.s.items, n, inputs, p.items, h);
    }
  }

  lemma HashesPromised(b: PackBuilder, items: seq<PendingFile>, parts: seq<seq<Bytes>>)
    requires AllPromised(b, items, parts)
    ensures forall k :: 0 <= k < |items| ==> items[k].fileHash == Sha256(Concat(parts[k]))
  {
    assert forall k :: 0 <= k < |items| ==> Promised(b.session.s.actor.known, b.Keys(), b.material, items[k], parts[k]);
  }

  /** The run after its draft was created: the catalog, the file loop and the end. */
  method BackUp(session: Session, n: SnapId, prev: Previous, inputs: seq<FileInput>, random: nat)
    returns (ok: bool, b: PackBuilder, p: RunProgress)
    requires CollisionFree() && Inv(session.s) && Safe(session.s) && session.s.actor.Worker?
    requires session.s.actor.draft == HasDraft(n) && n in session.s.snaps && TwoAttempts(inputs)
    requires prev.Previous? ==> Visible(session.s.snaps, prev.snap) && RowsOfSnapshot(session.s, prev.snap, prev.rows)
    modifies session
    ensures b.session == session && Accountable(b, inputs, old(session.s).items, prev, ok)
    ensures Traced(b, old(session.s).objects, session.s, ok)
    ensures Leaves(old(session.s), session.s, n, ok)
    ensures ok ==> Counted(inputs, |p.items|, p.unstable)
    ensures ok ==> Named(old(session.s).items, prev, session.s.items, n, inputs)
    ensures ok ==> n in session.s.snaps && session.s.snaps[n].state == if p.unstable > 0 then Partial else Available
    ensures InPlayRun(inputs, b) ==> Evolves(old(session.s), session.s)
    ensures ok && InPlayRun(inputs, b) ==> Outcome(old(session.s).items, prev, session.s.items, n, inputs, p)
  {
    ghost var s := session.s;
    var catalog := LoadPrevious(session, prev);
    EvolvesKeeps(s, session.s);
    b := new PackBuilder(session, RunMaterial(inputs, session.s.items, prev));
    ok, p := Transfer(b, n, prev, catalog, inputs, random);
    if InPlayRun(inputs, b) {
      RunIsHonest(s, inputs, prev, b);
      EvolvesTrans(s, b.start, session.s);
    }
  }

  /** The draft of a run, which is nothing but its own row. */
  method StartDraft(session: Session, n: SnapId, created: nat, ghost prev: Previous) returns (ok: bool)
    requires CollisionFree() && Inv(session.s) && Safe(session.s) && session.s.actor.Worker?
    requires IsLatest(session.s, prev)
    modifies session
    ensures !ok ==> session.s == old(session.s)
    ensures ok ==> session.s.actor.Worker? && session.s.actor.draft == HasDraft(n) && n in session.s.snaps
    ensures ok ==> Evolves(old(session.s), session.s) && Inv(session.s) && Safe(session.s)
    ensures ok ==> session.s.objects == old(session.s).objects
    ensures ok ==> session.s.items == old(session.s).items && Leaves(old(session.s), session.s, n, true)
    ensures ok ==> NothingNew(old(session.s), session.s)
    ensures ok && prev.Previous? ==>
      Visible(session.s.snaps, prev.snap) && RowsOfSnapshot(session.s, prev.snap, prev.rows)
  {
    ghost var s := session.s;
    ok := CreateDraft(session, n, created);
    if ok {
      Drafted(s, n, created, session.s, prev);
      DraftFramed(s, n, created, session.s);
    }
  }

  lemma RunKeeps(s: State, drafted: State, t: State)
    requires CollisionFree() && Inv(s) && Safe(s) && Evolves(s, drafted) && Evolves(drafted, t)
    ensures Evolves(s, t) && Inv(t) && Safe(t)
  {
    EvolvesTrans(s, drafted, t);
    EvolvesKeeps(s, t);
  }

  lemma DraftFramed(s: State, n: SnapId, created: nat, t: State)
    requires CreateDraftStep(s, n, created, t)
    ensures Framed(s, t, n) && FramedPublished(s, t, n)
  {
  }

  /**
    execute. Whatever its data, a run leaves the rows of other snapshots alone; one that fails makes no snapshot
    visible; one that succeeds publishes its draft, READY exactly if no file was left out, and names every input by its
    hash. A run works with nothing but blocks of its inputs and parts of the previous snapshot. If the former, and the
    packs made of them, lie in the collision-free data, then however the run ends it got there by steps of the system,
    and published rows hold every input: the bytes of a stable attempt, or the content recorded before for the
    unchanged file.
   */
  method Execute(session: Session, n: SnapId, created: nat, prev: Previous, inputs: seq<FileInput>, random: nat)
    returns (ok: bool, b: PackBuilder?, p: RunProgress)
    requires CollisionFree() && Inv(session.s) && Safe(session.s) && session.s.actor.Worker?
    requires TwoAttempts(inputs) && IsLatest(session.s, prev)
    modifies session
    ensures b == null ==> !ok && session.s == old(session.s)
    ensures b != null ==> b.session == session && Accountable(b, inputs, old(session.s).items, prev, ok)
    ensures b != null ==> Traced(b, old(session.s).objects, session.s, ok)
    ensures Leaves(old(session.s), session.s, n, ok)
    ensures ok ==> Counted(inputs, |p.items|, p.unstable)
    ensures ok ==> Named(old(session.s).items, prev, session.s.items, n, inputs)
    ensures ok ==> n in session.s.snaps && session.s.snaps[n].state == if p.unstable > 0 then Partial else Available
    ensures b != null && InPlayRun(inputs, b) ==>
      Evolves(old(session.s), session.s) && Inv(session.s) && Safe(session.s)
    ensures ok && InPlayRun(inputs, b) ==> Outcome(old(session.s).items, prev, session.s.items, n, inputs, p)
  {
    b, p := null, RunProgress([], 0, 0);
    ghost var s := session.s;
    ok := StartDraft(session, n, created, prev);
    if !ok {
      LeavesSame(s, n);
      return;
    }
    ghost var drafted := session.s;
    ok, b, p := BackUp(session, n, prev, inputs, random);
    LeavesTrans(s, drafted, session.s, n, ok);
    if InPlayRun(inputs, b) {
      RunKeeps(s, drafted, session.s);
    }
  }

  /**
    The round trip: whenever the snapshot is visible, restoring a file it holds returns what was read from the
    source or recorded before, unless the listed size was wrong.
   */
  method RestoreHeld(s: State, past: Items, prev: Previous, n: SnapId, input: FileInput, recipes: seq<Recipe>)
    returns (r: RestoreResult)
    requires CollisionFree() && Inv(s) && Safe(s) && Visible(s.snaps, n) && HoldsFile(past, prev, s.items, n, input)
    requires PlannedFrom(s, ItemKey(n, input.file.relativePath), recipes)
    ensures r.Restored? || r.SizeMismatch?
    ensures r.Restored? ==> |r.bytes| == input.file.size
    ensures r.Restored? ==> FromStableAttempt(input.file, input.attempts, r.bytes)
                            || exists parts :: Unchanged(past, prev, input, parts) && r.bytes == Concat(parts)
    ensures r.SizeMismatch? ==>
      exists parts :: HoldsParts(past, prev, s.items, n, input, parts) && |Concat(parts)| != input.file.size
  {
    ghost var parts :| HoldsParts(past, prev, s.items, n, input, parts);
    r := RestoreItem(s, ItemKey(n, input.file.relativePath), recipes);
  }

  /**
    What restoring the file gives: what a stable attempt read or the snapshot before held, or a size mismatch. It is
    not even planned if nothing was read of a file with a size.
   */
  ghost predicate RestoredAs(past: Items, prev: Previous, items: Items, n: SnapId, input: FileInput, planned: bool,
                             r: RestoreResult) {
    exists parts ::
      && HoldsParts(past, prev, items, n, input, parts) && (planned <==> input.file.size == 0 || parts != [])
      && (planned ==> r == if |Concat(parts)| == input.file.size then Restored(Concat(parts)) else SizeMismatch)
  }

  /**
    A run and a restore of one of its files. If the data is in play and the file was not left out, then the restore
    returns its content.
   */
  method BackUpAndRestore(session: Session, n: SnapId, created: nat, prev: Previous, inputs: seq<FileInput>,
                          random: nat, j: nat)
    returns (ok: bool, b: PackBuilder?, p: RunProgress, planned: bool, r: RestoreResult)
    requires CollisionFree() && Inv(session.s) && Safe(session.s) && session.s.actor.Worker?
    requires InBounds(session.s.blocks, session.s.packs)
    requires TwoAttempts(inputs) && IsLatest(session.s, prev) && j < |inputs|
    modifies session
    ensures ok ==> b != null && Accountable(b, inputs, old(session.s).items, prev, true)
    ensures ok && InPlayRun(inputs, b) && !NeverStable(inputs[j]) ==>
      RestoredAs(old(session.s).items, prev, session.s.items, n, inputs[j], planned, r)
  {
    planned, r := false, PackMissing;
    ghost var s := session.s;
    ok, b, p := Execute(session, n, created, prev, inputs, random);
    var key := ItemKey(n, inputs[j].file.relativePath);
    if !ok || key !in session.s.items {
      return;
    }
    var recipes;
    planned, recipes := PlanBlocks(session.s, key);
    if planned {
      r := Reconstruct(session.s.objects, recipes, session.s.items[key].size, session.s.items[key].sha,
                       session.s.items[key].parts);
    }
    if InPlayRun(inputs, b) && !NeverStable(inputs[j]) {
      EvolvesBounds(s, session.s);
      HeldRestores(session.s, s.items, prev, n, inputs[j]);
      if planned {
        HeldDelivers(session.s, key, recipes);
      }
    }
  }

  lemma HeldRestores(s: State, past: Items, prev: Previous, n: SnapId, input: FileInput)
    requires Inv(s) && Visible(s.snaps, n) && HoldsFile(past, prev, s.items, n, input)
    ensures var row := s.items[ItemKey(n, input.file.relativePath)];
            HoldsParts(past, prev, s.items, n, input, row.parts) && row.size == input.file.size
  {
  }

  /** The recipes of a visible item deliver its parts. */
  lemma HeldDelivers(s: State, item: ItemKey, recipes: seq<Recipe>)
    requires CollisionFree() && Inv(s) && Safe(s) && item in s.items && Visible(s.snaps, item.snap)
    requires PlannedFrom(s, item, recipes)
    ensures |recipes| == |s.items[item].parts| && s.items[item].sha == Sha256(Concat(s.items[item].parts))
    ensures forall i :: 0 <= i < |recipes| ==> Delivers(s.objects, recipes[i], s.items[item].parts[i])
  {
    SafeItemPresent(s, item);
    VisibleItemDelivers(s, item, recipes);
  }
}
