/** Loading the previous snapshot's catalog: the row fold that decides which files may be reused. */
module CatalogFold {
  import opened Bytes
  import opened Repository
  import opened RepositorySafety
  import opened Sessions
  import opened PackBuilding
  import opened BackupRuns

  datatype NullTime = NoTime | At(time: Time)

  /** A row of the joined query; a file without blocks gives one row with ordinal -1 and no block. */
  datatype JoinRow = JoinRow(path: Path, size: nat, mtime: NullTime, sha: Bytes, ordinal: int, blockId: Bytes,
                             packReady: bool)

  datatype Accumulator = Accumulator(size: nat, mtime: NullTime, sha: Bytes, hasSha: bool, blockIds: seq<BlockId>,
                                     expected: nat, invalid: bool)

  // ---- What the query returns ------------------------------------------------------------------

  /** Block IDs are UUID texts; all other strings are the empty one. */
  predicate WellTyped(r: JoinRow) {
    r.blockId == [] || |r.blockId| == 36
  }

  /** The rows of one file, in the order of the result. */
  function Group(rows: seq<JoinRow>, path: Path): seq<JoinRow> {
    if rows == [] then []
    else
      var last := rows[|rows| - 1];
      Group(rows[..|rows| - 1], path) + if last.path == path then [last] else []
  }

  /** Rows of one file repeat its columns. */
  ghost predicate OneFile(group: seq<JoinRow>) {
    forall i :: 0 <= i < |group| ==>
      && WellTyped(group[i]) && group[i].size == group[0].size
      && group[i].mtime == group[0].mtime && group[i].sha == group[0].sha
  }

  ghost predicate Joined(rows: seq<JoinRow>) {
    forall path :: OneFile(Group(rows, path))
  }

  // ---- What may be reused ----------------------------------------------------------------------

  predicate UsableRow(r: JoinRow, k: nat) {
    r.ordinal == k && r.blockId != [] && r.packReady
  }

  /** Ordinals exactly 0..n-1 with at least one block, every pack READY; for an empty file no block at all. */
  ghost predicate BlocksUsable(group: seq<JoinRow>)
    requires group != []
  {
    if group[0].size == 0 then forall k :: 0 <= k < |group| ==> group[k].ordinal == -1 || group[k].blockId == []
    else forall k :: 0 <= k < |group| ==> UsableRow(group[k], k)
  }

  ghost predicate Admissible(group: seq<JoinRow>) {
    && group != [] && |group[0].sha| == 32 && group[0].mtime.At? && group[0].mtime.time != 0
    && BlocksUsable(group)
  }

  /** The catalog entry lists the file's blocks in ordinal order and repeats its columns. */
  ghost predicate EntryOf(item: CatalogItem, group: seq<JoinRow>)
    requires Admissible(group)
  {
    && item.size == group[0].size && item.mtime == group[0].mtime.time && item.fileSha == group[0].sha
    && |item.blockIds| == (if group[0].size == 0 then 0 else |group|)
    && forall k :: 0 <= k < |item.blockIds| ==> item.blockIds[k] == group[k].blockId
  }

  // ---- The fold --------------------------------------------------------------------------------

  function Fresh(r: JoinRow): Accumulator {
    Accumulator(r.size, r.mtime, r.sha, |r.sha| == 32, [], 0, |r.sha| != 32)
  }

  function AddRow(acc: Accumulator, r: JoinRow): Accumulator
    requires WellTyped(r)
  {
    if r.size == 0 then
      if r.ordinal != -1 && r.blockId != [] then acc.(invalid := true) else acc
    else if r.ordinal != acc.expected || r.blockId == [] || !r.packReady then acc.(invalid := true)
    else acc.(blockIds := acc.blockIds + [r.blockId], expected := acc.expected + 1)
  }

  /** What the accumulator of a file says about its first rows. */
  ghost predicate Summarises(acc: Accumulator, group: seq<JoinRow>) {
    && group != [] && acc.size == group[0].size && acc.mtime == group[0].mtime && acc.sha == group[0].sha
    && (acc.hasSha <==> |acc.sha| == 32)
    && (!acc.invalid <==> acc.hasSha && BlocksUsable(group))
    && acc.expected == |acc.blockIds|
    && (!acc.invalid ==>
          && |acc.blockIds| == (if acc.size == 0 then 0 else |group|)
          && forall k :: 0 <= k < |acc.blockIds| ==> acc.blockIds[k] == group[k].blockId)
  }

  lemma FirstRow(r: JoinRow)
    requires WellTyped(r)
    ensures Summarises(AddRow(Fresh(r), r), [r])
  {
    assert BlocksUsable([r]) <==> if r.size == 0 then r.ordinal == -1 || r.blockId == [] else UsableRow(r, 0);
  }

  predicate RowUsable(r: JoinRow, k: nat) {
    if r.size == 0 then r.ordinal == -1 || r.blockId == [] else UsableRow(r, k)
  }

  lemma UsableAppend(group: seq<JoinRow>, r: JoinRow)
    requires group != [] && r.size == group[0].size
    ensures BlocksUsable(group + [r]) <==> BlocksUsable(group) && RowUsable(r, |group|)
  {
    var more := group + [r];
    assert more[0] == group[0] && more[|group|] == r;
    assert forall k :: 0 <= k < |group| ==> more[k] == group[k];
    if BlocksUsable(more) {
      forall k | 0 <= k < |group|
        ensures if r.size == 0 then group[k].ordinal == -1 || group[k].blockId == [] else UsableRow(group[k], k)
      {
        assert more[k] == group[k];
      }
      assert BlocksUsable(group);
    }
  }

  lemma NextRow(acc: Accumulator, group: seq<JoinRow>, r: JoinRow)
    requires Summarises(acc, group) && WellTyped(r) && r.size == group[0].size
    ensures Summarises(AddRow(acc, r), group + [r])
  {
    UsableAppend(group, r);
    var more := group + [r];
    assert forall k :: 0 <= k < |group| ==> more[k] == group[k];
  }

  ghost predicate Folded(accs: map<Path, Accumulator>, rows: seq<JoinRow>) {
    forall path :: if path in accs then Summarises(accs[path], Group(rows, path)) else Group(rows, path) == []
  }

  lemma GroupStep(rows: seq<JoinRow>, i: nat, path: Path)
    requires i < |rows|
    ensures Group(rows[..i + 1], path) == Group(rows[..i], path) + if rows[i].path == path then [rows[i]] else []
  {
    assert rows[..i + 1][..i] == rows[..i];
  }

  lemma {:induction false} GroupPrefix(rows: seq<JoinRow>, i: nat, path: Path)
    requires i <= |rows|
    ensures Group(rows[..i], path) <= Group(rows, path)
    decreases |rows|
  {
    if i < |rows| {
      var n := |rows| - 1;
      GroupPrefix(rows[..n], i, path);
      assert rows[..n][..i] == rows[..i];
    } else {
      assert rows[..i] == rows;
    }
  }

  function Accumulated(accs: map<Path, Accumulator>, r: JoinRow): Accumulator
    requires WellTyped(r)
  {
    AddRow(if r.path in accs then accs[r.path] else Fresh(r), r)
  }

  /** The row continues the rows of its file. */
  lemma RowInGroup(rows: seq<JoinRow>, i: nat)
    requires i < |rows| && Joined(rows)
    ensures WellTyped(rows[i])
    ensures var group := Group(rows[..i], rows[i].path); group != [] ==> rows[i].size == group[0].size
  {
    var path := rows[i].path;
    GroupStep(rows, i, path);
    GroupPrefix(rows, i + 1, path);
    var group, whole := Group(rows[..i], path), Group(rows, path);
    assert OneFile(whole);
    assert whole[|group|] == rows[i];
    assert group != [] ==> whole[0] == group[0];
  }

  /** The accumulator of the row's file after the row. */
  lemma OwnFile(accs: map<Path, Accumulator>, rows: seq<JoinRow>, i: nat)
    requires i < |rows| && Folded(accs, rows[..i]) && Joined(rows) && WellTyped(rows[i])
    ensures Summarises(Accumulated(accs, rows[i]), Group(rows[..i + 1], rows[i].path))
  {
    var r := rows[i];
    RowInGroup(rows, i);
    GroupStep(rows, i, r.path);
    var group := Group(rows[..i], r.path);
    if r.path in accs {
      NextRow(accs[r.path], group, r);
    } else {
      FirstRow(r);
      assert [] + [r] == [r];
    }
  }

  /** The other files keep their accumulators. */
  lemma FoldStep(accs: map<Path, Accumulator>, rows: seq<JoinRow>, i: nat)
    requires i < |rows| && Folded(accs, rows[..i]) && Joined(rows)
    ensures WellTyped(rows[i]) && Folded(accs[rows[i].path := Accumulated(accs, rows[i])], rows[..i + 1])
  {
    RowInGroup(rows, i);
    OwnFile(accs, rows, i);
    var accs' := accs[rows[i].path := Accumulated(accs, rows[i])];
    forall path
      ensures if path in accs' then Summarises(accs'[path], Group(rows[..i + 1], path))
              else Group(rows[..i + 1], path) == []
    {
      if path != rows[i].path {
        GroupStep(rows, i, path);
        assert Group(rows[..i + 1], path) == Group(rows[..i], path);
      }
    }
  }

  /** The row loop. */
  method FoldRows(rows: seq<JoinRow>) returns (accs: map<Path, Accumulator>)
    requires Joined(rows)
    ensures Folded(accs, rows)
  {
    accs := map[];
    var i := 0;
    while i < |rows|
      invariant i <= |rows| && Folded(accs, rows[..i])
    {
      var r := rows[i];
      FoldStep(accs, rows, i);
      var acc := if r.path in accs then accs[r.path] else Fresh(r);
      accs := accs[r.path := AddRow(acc, r)];
      i := i + 1;
    }
    assert rows[..i] == rows;
  }

  /** The filter of the second loop. */
  predicate Admits(acc: Accumulator) {
    !acc.invalid && acc.mtime.At? && acc.mtime.time != 0 && acc.hasSha && !(acc.size > 0 && |acc.blockIds| == 0)
  }

  /** The guard against a sized file without blocks never decides: such a file is invalid already. */
  lemma AdmitsIff(acc: Accumulator, group: seq<JoinRow>)
    requires Summarises(acc, group)
    ensures Admits(acc) <==> Admissible(group)
    ensures Admits(acc) ==> EntryOf(CatalogItem(acc.size, acc.mtime.time, acc.sha, acc.blockIds), group)
  {
  }

  /** GetBackupSnapshotFileCatalogContext: a file is in the catalog exactly when it may be reused. */
  method LoadCatalog(rows: seq<JoinRow>) returns (catalog: map<Path, CatalogItem>)
    requires Joined(rows)
    ensures forall path :: path in catalog <==> Admissible(Group(rows, path))
    ensures forall path :: path in catalog ==> EntryOf(catalog[path], Group(rows, path))
  {
    var accs := FoldRows(rows);
    catalog := map[];
    var left := accs.Keys;
    while left != {}
      invariant left <= accs.Keys && catalog.Keys <= accs.Keys - left
      invariant forall path :: path in accs.Keys - left ==> (path in catalog <==> Admissible(Group(rows, path)))
      invariant forall path :: path in catalog ==>
        Admissible(Group(rows, path)) && EntryOf(catalog[path], Group(rows, path))
    {
      var path :| path in left;
      var acc := accs[path];
      AdmitsIff(acc, Group(rows, path));
      if Admits(acc) {
        catalog := catalog[path := CatalogItem(acc.size, acc.mtime.time, acc.sha, acc.blockIds)];
      }
      left := left - {path};
    }
  }

  // ---- Ordinals --------------------------------------------------------------------------------

  function Ordinals(group: seq<JoinRow>): set<int> {
    set k | 0 <= k < |group| :: group[k].ordinal
  }

  ghost predicate Ascending(group: seq<JoinRow>) {
    forall i, j :: 0 <= i < j < |group| ==> group[i].ordinal < group[j].ordinal
  }

  /** Rows come ordered by ordinal, so "row k has ordinal k" says the ordinals are exactly 0..n-1. */
  lemma OrdinalsDense(group: seq<JoinRow>)
    requires Ascending(group) && forall k :: 0 <= k < |group| ==> group[k].ordinal >= 0
    ensures (forall k :: 0 <= k < |group| ==> group[k].ordinal == k) <==>
            (forall n :: 0 <= n < |group| ==> n in Ordinals(group))
  {
    if forall k :: 0 <= k < |group| ==> group[k].ordinal == k {
      forall n | 0 <= n < |group| ensures n in Ordinals(group) {
        assert group[n].ordinal == n;
      }
    } else if forall n :: 0 <= n < |group| ==> n in Ordinals(group) {
      forall k | 0 <= k < |group| ensures group[k].ordinal == k {
        OrdinalAtLeast(group, k);
        OrdinalAtMost(group, k);
      }
    }
  }

  lemma OrdinalAtLeast(group: seq<JoinRow>, k: nat)
    requires Ascending(group) && k < |group| && forall i :: 0 <= i < |group| ==> group[i].ordinal >= 0
    ensures group[k].ordinal >= k
  {
    AscendsAtLeast(seq(|group|, i requires 0 <= i < |group| => group[i].ordinal), k);
  }

  lemma OrdinalAtMost(group: seq<JoinRow>, k: nat)
    requires Ascending(group) && k < |group| && forall n :: 0 <= n < |group| ==> n in Ordinals(group)
    requires forall i :: 0 <= i < |group| ==> group[i].ordinal >= 0
    ensures group[k].ordinal <= k
    decreases |group| - k
  {
    assert k in Ordinals(group);
    var j :| 0 <= j < |group| && group[j].ordinal == k;
    OrdinalAtLeast(group, j);
    assert j <= k;
    if j < k {
      SpreadOut(group, j, k);
    }
  }

  /** Too small an index for its ordinal leaves no room for the ordinals below. */
  lemma {:induction false} SpreadOut(group: seq<JoinRow>, j: nat, k: nat)
    requires Ascending(group) && j < k < |group| && group[j].ordinal == k
    requires forall n :: 0 <= n < |group| ==> n in Ordinals(group)
    requires forall i :: 0 <= i < |group| ==> group[i].ordinal >= 0
    ensures false
    decreases j
  {
    assert k - 1 in Ordinals(group);
    var i :| 0 <= i < |group| && group[i].ordinal == k - 1;
    assert i < j;
    SpreadOut(group, i, k - 1);
  }

  // ---- The catalog and the snapshot ------------------------------------------------------------

  /** The rows the join yields for one stored file. */
  ghost predicate RowsFor(s: State, key: ItemKey, group: seq<JoinRow>)
    requires key in s.items
  {
    && group != [] && OneFile(group) && group[0].size == s.items[key].size && group[0].sha == s.items[key].sha
    && Ascending(group)
    && (forall k :: 0 <= k < |group| ==>
          if group[k].blockId == [] then group[k].ordinal == -1
          else
            && group[k].ordinal >= 0 && Link(key, group[k].ordinal) in s.links
            && group[k].blockId == s.links[Link(key, group[k].ordinal)])
    && (forall n: nat :: Link(key, n) in s.links ==> n in Ordinals(group))
  }

  /** A reusable file of a visible snapshot lists exactly the blocks its content was streamed in, in order. */
  lemma CatalogReflectsSnapshot(s: State, key: ItemKey, group: seq<JoinRow>, item: CatalogItem)
    requires Inv(s) && key in s.items && RepositorySafety.Kept(s.snaps, key.snap) && RowsFor(s, key, group)
    requires Admissible(group) && EntryOf(item, group)
    ensures |item.blockIds| == |s.items[key].parts|
    ensures item.fileSha == Sha256(Concat(s.items[key].parts))
    ensures forall i :: 0 <= i < |item.blockIds| ==>
      && Link(key, i) in s.links && item.blockIds[i] == s.links[Link(key, i)]
      && StandsFor(s.blocks, item.blockIds[i], s.items[key].parts[i])
  {
    if group[0].size == 0 {
      NoLinks(s, key, group);
    } else {
      AllLinks(s, key, group);
    }
  }

  lemma NoLinks(s: State, key: ItemKey, group: seq<JoinRow>)
    requires Inv(s) && key in s.items && RepositorySafety.Kept(s.snaps, key.snap) && RowsFor(s, key, group)
    requires forall k :: 0 <= k < |group| ==> group[k].ordinal == -1 || group[k].blockId == []
    ensures s.items[key].parts == []
  {
    assert 0 !in Ordinals(group);
    assert Link(key, 0) !in s.links;
  }

  lemma AllLinks(s: State, key: ItemKey, group: seq<JoinRow>)
    requires Inv(s) && key in s.items && RepositorySafety.Kept(s.snaps, key.snap) && RowsFor(s, key, group)
    requires forall k :: 0 <= k < |group| ==> UsableRow(group[k], k)
    ensures |group| == |s.items[key].parts|
    ensures forall k :: 0 <= k < |group| ==> Link(key, k) in s.links && group[k].blockId == s.links[Link(key, k)]
  {
    var last := |group| - 1;
    assert UsableRow(group[last], last);
    assert Link(key, last) in s.links;
    assert |group| !in Ordinals(group);
    assert Link(key, |group|) !in s.links;
  }

  // ---- What the worker learns from the rows ----------------------------------------------------

  /** The query's rows for the files of snapshot n. */
  ghost predicate RowsOfSnapshot(s: State, n: SnapId, rows: seq<JoinRow>) {
    && Joined(rows)
    && forall path :: Group(rows, path) != [] ==>
         ItemKey(n, path) in s.items && RowsFor(s, ItemKey(n, path), Group(rows, path))
  }

  /** A row that names a block names the one linked at its ordinal. */
  predicate Linked(s: State, n: SnapId, r: JoinRow) {
    r.blockId != [] ==>
      var key := ItemKey(n, r.path);
      && |r.blockId| == 36 && key in s.items && 0 <= r.ordinal < |s.items[key].parts|
      && Link(key, r.ordinal) in s.links && r.blockId == s.links[Link(key, r.ordinal)]
  }

  predicate AllLinked(s: State, n: SnapId, rows: seq<JoinRow>) {
    forall i :: 0 <= i < |rows| ==> Linked(s, n, rows[i])
  }

  /** What reading the rows tells the worker: each block stands for the part streamed at its ordinal. */
  function KnownFromRows(s: State, n: SnapId, rows: seq<JoinRow>): map<BlockId, Bytes>
    requires s.actor.Worker? && AllLinked(s, n, rows)
  {
    if rows == [] then s.actor.known
    else
      var last, known := rows[|rows| - 1], KnownFromRows(s, n, rows[..|rows| - 1]);
      if last.blockId == [] then known
      else known[last.blockId := s.items[ItemKey(n, last.path)].parts[last.ordinal]]
  }

  function Knowing(s: State, known: map<BlockId, Bytes>): State
    requires s.actor.Worker?
  {
    s.(actor := s.actor.(known := known))
  }

  /** Reading the rows takes one reuse step for each block named. */
  lemma {:induction false} LearnRows(s: State, n: SnapId, rows: seq<JoinRow>)
    requires s.actor.Worker? && Visible(s.snaps, n) && AllLinked(s, n, rows)
    ensures Evolves(s, Knowing(s, KnownFromRows(s, n, rows)))
  {
    if rows == [] {
      EvolvesRefl(s);
      assert Knowing(s, s.actor.known) == s;
    } else {
      var before, last := rows[..|rows| - 1], rows[|rows| - 1];
      LearnRows(s, n, before);
      if last.blockId != [] {
        ReuseRow(s, n, last, Knowing(s, KnownFromRows(s, n, before)));
      }
    }
  }

  lemma ReuseRow(start: State, n: SnapId, r: JoinRow, s: State)
    requires Evolves(start, s) && s.actor.Worker? && Visible(s.snaps, n) && r.blockId != [] && Linked(s, n, r)
    ensures Evolves(start, Knowing(s, s.actor.known[r.blockId := s.items[ItemKey(n, r.path)].parts[r.ordinal]]))
  {
    var k := Link(ItemKey(n, r.path), r.ordinal);
    EvolvesStep(start, s, Reuse(k), Knowing(s, s.actor.known[s.links[k] := s.items[k.item].parts[k.ordinal]]));
  }

  /** Every known block stands for its content. */
  ghost predicate AllStand(blocks: Blocks, known: map<BlockId, Bytes>) {
    forall b :: b in known ==> StandsFor(blocks, b, known[b])
  }

  ghost predicate RowKnown(s: State, n: SnapId, r: JoinRow, known: map<BlockId, Bytes>) {
    r.blockId != [] ==> Linked(s, n, r) && IsBlockOf(known, r.blockId, s.items[ItemKey(n, r.path)].parts[r.ordinal])
  }

  /** No block stands for two contents, so learning never overwrites. */
  lemma LearnRow(s: State, n: SnapId, r: JoinRow, known: map<BlockId, Bytes>)
    requires CollisionFree() && Recorded(s.links, s.items, s.blocks) && AllStand(s.blocks, known)
    requires r.blockId != [] && Linked(s, n, r)
    ensures var more := known[r.blockId := s.items[ItemKey(n, r.path)].parts[r.ordinal]];
            AllStand(s.blocks, more) && Extends(known, more) && RowKnown(s, n, r, more)
  {
    var key := ItemKey(n, r.path);
    assert StandsFor(s.blocks, s.links[Link(key, r.ordinal)], s.items[key].parts[r.ordinal]);
  }

  lemma {:induction false} LearnedFromRows(s: State, n: SnapId, rows: seq<JoinRow>)
    requires CollisionFree() && Recorded(s.links, s.items, s.blocks) && s.actor.Worker? && AllLinked(s, n, rows)
    requires AllStand(s.blocks, s.actor.known)
    ensures var known := KnownFromRows(s, n, rows);
            && AllStand(s.blocks, known) && Extends(s.actor.known, known)
            && (forall i :: 0 <= i < |rows| ==> RowKnown(s, n, rows[i], known))
  {
    if rows != [] {
      var before, last := rows[..|rows| - 1], rows[|rows| - 1];
      LearnedFromRows(s, n, before);
      if last.blockId != [] {
        LearnRow(s, n, last, KnownFromRows(s, n, before));
      }
      forall i | 0 <= i < |before|
        ensures RowKnown(s, n, rows[i], KnownFromRows(s, n, rows))
      {
        assert RowKnown(s, n, before[i], KnownFromRows(s, n, before));
      }
    }
  }

  lemma {:induction false} GroupFrom(rows: seq<JoinRow>, path: Path)
    ensures forall r :: r in Group(rows, path) ==> r in rows && r.path == path
    ensures forall r :: r in rows && r.path == path ==> r in Group(rows, path)
  {
    if rows != [] {
      GroupFrom(rows[..|rows| - 1], path);
      assert rows == rows[..|rows| - 1] + [rows[|rows| - 1]];
    }
  }

  lemma RowsLinked(s: State, n: SnapId, rows: seq<JoinRow>)
    requires Inv(s) && RowsOfSnapshot(s, n, rows)
    ensures AllLinked(s, n, rows)
  {
    forall i | 0 <= i < |rows|
      ensures Linked(s, n, rows[i])
    {
      GroupFrom(rows, rows[i].path);
      RowLinked(s, n, rows[i], Group(rows, rows[i].path));
    }
  }

  lemma RowLinked(s: State, n: SnapId, r: JoinRow, group: seq<JoinRow>)
    requires Inv(s) && r in group && ItemKey(n, r.path) in s.items && RowsFor(s, ItemKey(n, r.path), group)
    ensures Linked(s, n, r)
  {
    var k :| 0 <= k < |group| && group[k] == r;
    assert WellTyped(group[k]);
    if r.blockId != [] {
      assert Link(ItemKey(n, r.path), r.ordinal) in s.links;
    }
  }

  function PartsOfSnapshot(items: Items, n: SnapId, catalog: map<Path, CatalogItem>): map<Path, seq<Bytes>> {
    map path | path in catalog && ItemKey(n, path) in items :: items[ItemKey(n, path)].parts
  }

  /**
    What reuse relies on follows from the catalog. After reading the rows of a visible snapshot the worker knows, for
    every file in the loaded catalog, that its blocks are the content the snapshot recorded.
   */
  lemma LearnCatalog(s: State, n: SnapId, rows: seq<JoinRow>, catalog: map<Path, CatalogItem>)
    requires CollisionFree() && Inv(s) && s.actor.Worker? && Visible(s.snaps, n) && RowsOfSnapshot(s, n, rows)
    requires forall path :: path in catalog ==>
      Admissible(Group(rows, path)) && EntryOf(catalog[path], Group(rows, path))
    ensures AllLinked(s, n, rows)
    ensures var known := KnownFromRows(s, n, rows);
            && Evolves(s, Knowing(s, known)) && AllStand(s.blocks, known) && Extends(s.actor.known, known)
            && CatalogKnown(catalog, PartsOfSnapshot(s.items, n, catalog), known)
  {
    RowsLinked(s, n, rows);
    LearnRows(s, n, rows);
    LearnedFromRows(s, n, rows);
    forall path | path in catalog
      ensures ItemKey(n, path) in s.items
      ensures ItemKnown(catalog[path], s.items[ItemKey(n, path)].parts, KnownFromRows(s, n, rows))
    {
      LearnedFile(s, n, rows, path, catalog[path], KnownFromRows(s, n, rows));
    }
  }

  lemma LearnedFile(s: State, n: SnapId, rows: seq<JoinRow>, path: Path, item: CatalogItem, known: map<BlockId, Bytes>)
    requires Inv(s) && Visible(s.snaps, n) && RowsOfSnapshot(s, n, rows)
    requires Admissible(Group(rows, path)) && EntryOf(item, Group(rows, path))
    requires forall i :: 0 <= i < |rows| ==> RowKnown(s, n, rows[i], known)
    ensures ItemKey(n, path) in s.items && ItemKnown(item, s.items[ItemKey(n, path)].parts, known)
  {
    var key, group := ItemKey(n, path), Group(rows, path);
    CatalogReflectsSnapshot(s, key, group, item);
    forall i | 0 <= i < |item.blockIds|
      ensures IsBlockOf(known, item.blockIds[i], s.items[key].parts[i])
    {
      assert UsableRow(group[i], i);
      RowOfGroup(s, n, rows, path, i, known);
    }
  }

  lemma RowOfGroup(s: State, n: SnapId, rows: seq<JoinRow>, path: Path, i: nat, known: map<BlockId, Bytes>)
    requires i < |Group(rows, path)| && forall i :: 0 <= i < |rows| ==> RowKnown(s, n, rows[i], known)
    ensures RowKnown(s, n, Group(rows, path)[i], known) && Group(rows, path)[i].path == path
  {
    GroupFrom(rows, path);
    var r := Group(rows, path)[i];
    assert r in rows;
  }
}
