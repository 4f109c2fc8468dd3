/**
  The connection of a lock holder to the catalog database and the remote store. Its methods run the SQL
  statements and remote calls of the source one by one; each is proved to be a step of the repository's
  transition system, or to leave it unchanged when it fails.
 */
module Sessions {
  import opened Bytes
  import opened PackFormat
  import opened Repository
  import opened RepositorySafety
  import opened SnapshotTheorems
  import opened SnapshotDurability

  // ---- What a lock holder's code may do to the repository --------------------------------------

  /** Steps taken while the lock is held. */
  predicate Interior(step: Step) {
    !step.StartWorker? && !step.StartMaintenance? && !step.Stop?
  }

  ghost predicate Reaches(s: State, steps: seq<Step>, t: State)
    decreases |steps|
  {
    if steps == [] then s == t
    else
      var before, step := steps[..|steps| - 1], steps[|steps| - 1];
      Interior(step) && exists m :: Reaches(s, before, m) && Next(m, step, t)
  }

  /** t is reached from s by interior steps of the transition system. */
  ghost predicate Evolves(s: State, t: State) {
    exists steps :: Reaches(s, steps, t)
  }

  lemma EvolvesRefl(s: State)
    ensures Evolves(s, s)
  {
    assert Reaches(s, [], s);
  }

  lemma EvolvesStep(s: State, m: State, step: Step, t: State)
    requires Evolves(s, m) && Next(m, step, t) && Interior(step)
    ensures Evolves(s, t)
  {
    var steps :| Reaches(s, steps, m);
    var more := steps + [step];
    assert more[..|more| - 1] == steps;
    assert Reaches(s, more, t);
  }

  lemma {:induction false} ReachesTrans(s: State, m: State, steps: seq<Step>, t: State)
    requires Evolves(s, m) && Reaches(m, steps, t)
    ensures Evolves(s, t)
    decreases |steps|
  {
    if steps != [] {
      var last := |steps| - 1;
      var n :| Reaches(m, steps[..last], n) && Next(n, steps[last], t);
      ReachesTrans(s, m, steps[..last], n);
      EvolvesStep(s, n, steps[last], t);
    }
  }

  lemma EvolvesTrans(s: State, m: State, t: State)
    requires Evolves(s, m) && Evolves(m, t)
    ensures Evolves(s, t)
  {
    var steps :| Reaches(m, steps, t);
    ReachesTrans(s, m, steps, t);
  }

  lemma {:induction false} ReachesKeeps(s: State, steps: seq<Step>, t: State)
    requires CollisionFree() && Inv(s) && Safe(s) && Reaches(s, steps, t)
    ensures Inv(t) && Safe(t)
    decreases |steps|
  {
    if steps != [] {
      var last := |steps| - 1;
      var m :| Reaches(s, steps[..last], m) && Next(m, steps[last], t);
      ReachesKeeps(s, steps[..last], m);
      StepKeepsInv(m, steps[last], t);
      StepKeepsSafe(m, steps[last], t);
    }
  }

  /** Whatever a lock holder's code does through interior steps keeps every visible snapshot restorable. */
  lemma EvolvesKeeps(s: State, t: State)
    requires CollisionFree() && Inv(s) && Safe(s) && Evolves(s, t)
    ensures Inv(t) && Safe(t)
  {
    var steps :| Reaches(s, steps, t);
    ReachesKeeps(s, steps, t);
  }

  /** An upload that broke off: arbitrary bytes under a name no READY pack uses. */
  ghost predicate BrokenOff(s: State, id: Digest, t: State) {
    NotReady(s.packs, id) && id in t.objects && t == s.(objects := s.objects[id := t.objects[id]])
  }

  /** Whatever an attempt to upload does to the store. */
  ghost predicate UploadTried(s: State, bytes: Bytes, t: State) {
    t == s || t == s.(objects := s.objects[Sha256(bytes) := bytes]) || BrokenOff(s, Sha256(bytes), t)
  }

  lemma UploadEvolves(start: State, s: State, bytes: Bytes, t: State)
    requires Evolves(start, s) && s.actor != Idle && bytes in InPlay && UploadTried(s, bytes, t)
    ensures Evolves(start, t)
  {
    if t == s.(objects := s.objects[Sha256(bytes) := bytes]) {
      EvolvesStep(start, s, Upload(bytes), t);
    } else if t != s {
      EvolvesStep(start, s, PartialUpload(Sha256(bytes), t.objects[Sha256(bytes)]), t);
    }
  }

  // ---- The session -----------------------------------------------------------------------------

  datatype Download = Absent | Content(bytes: Bytes)

  class Session {
    var s: State

    constructor (initial: State)
      ensures s == initial
    {
      s := initial;
    }

    /** StreamUpload, FileExists: the object is in the store under its digest, or the upload failed, perhaps halfway. */
    method Upload(bytes: Bytes) returns (ok: bool)
      modifies this
      ensures UploadTried(old(s), bytes, s)
      ensures ok ==> s == old(s).(objects := old(s).objects[Sha256(bytes) := bytes])
    {
      if * {
        return false;
      }
      if * {
        var part: Bytes := *;
        if NotReady(s.packs, Sha256(bytes)) {
          s := s.(objects := s.objects[Sha256(bytes) := part]);
        }
        return false;
      }
      s := s.(objects := s.objects[Sha256(bytes) := bytes]);
      ok := true;
    }

    method Fetch(id: Digest) returns (r: Download)
      ensures r.Content? ==> id in s.objects && s.objects[id] == r.bytes
      ensures id !in s.objects ==> r == Absent
    {
      if id !in s.objects {
        return Absent;
      }
      if * {
        return Absent;
      }
      r := Content(s.objects[id]);
    }

    /**
      Encodes the entries, uploads the pack under its digest, reads it back and validates it entry by entry.
      Success means that the object in the store is the encoding of exactly these entries.
     */
    method StorePack(entries: seq<Entry>) returns (ok: bool, id: Digest, offsets: seq<nat>)
      requires Encodable(entries)
      modifies this
      ensures id == Sha256(PackBytes(entries))
      ensures UploadTried(old(s), PackBytes(entries), s)
      ensures ok ==> id in s.objects && s.objects[id] == PackBytes(entries)
                     && s == old(s).(objects := old(s).objects[id := PackBytes(entries)])
                     && IsPackOf(PackBytes(entries), entries) && PayloadOffsets(entries, offsets)
    {
      var encoded := EncodePack(entries);
      id := encoded.pack.id;
      offsets := [];
      ok := Upload(encoded.bytes);
      if !ok {
        return;
      }
      var remote := Fetch(id);
      if remote.Absent? {
        return false, id, offsets;
      }
      var validated := ValidatePack(remote.bytes, id);
      if validated.Rejected? || validated.pack.size != encoded.pack.size || validated.entries != entries {
        return false, id, offsets;
      }
      offsets := validated.offsets;
    }

    /** gen_random_uuid(): nothing is assumed about the values; a clash makes the INSERT fail. */
    method GenerateIds(n: nat) returns (p: PackId, ids: seq<BlockId>)
      ensures |ids| == n
    {
      p := *;
      ids := [];
      while |ids| < n
        invariant |ids| <= n
      {
        var id: BlockId := *;
        ids := ids + [id];
      }
    }

    /** FindBackupBlockContext: the block with this hash in a READY pack, if any. */
    method FindBlock(hash: Digest) returns (found: bool, id: BlockId)
      ensures found ==> id in s.blocks && s.blocks[id].sha == hash && HasState(s.packs, s.blocks[id].pack, Ready)
      ensures !found ==> forall b :: b in s.blocks && s.blocks[b].sha == hash ==>
        !HasState(s.packs, s.blocks[b].pack, Ready)
    {
      var rows := set b | b in s.blocks && s.blocks[b].sha == hash && HasState(s.packs, s.blocks[b].pack, Ready);
      if rows == {} {
        id := seq(36, _ => 0);
        assert forall b :: b in s.blocks ==> b !in rows;
        return false, id;
      }
      id :| id in rows;
      found := true;
    }

    /** The INSERTs of the block rows, one at a time: the first that violates a UNIQUE constraint stops them. */
    method InsertBlocks(p: PackId, entries: seq<Entry>, offsets: seq<nat>, ids: seq<BlockId>)
      returns (ok: bool, blocks: Blocks)
      requires |ids| == |entries| > 0 && PayloadOffsets(entries, offsets)
      ensures ok <==> NewBlockRows(s, entries, ids)
      ensures ok ==> blocks == Place(s.blocks, p, entries, ids, |ids|)
    {
      blocks := s.blocks;
      for i := 0 to |entries|
        invariant NewRows(s.blocks, entries, ids, i)
        invariant blocks == Place(s.blocks, p, entries, ids, i)
      {
        var row := BlockRow(entries[i].hash, p, offsets[i], |entries[i].data|);
        InsertAllowed(s.blocks, p, entries, ids, i);
        if !RowFree(blocks, ids[i], row.sha) {
          if NewBlockRows(s, entries, ids) {
            NewRowsPrefix(s, entries, ids, i + 1);
          }
          return false, blocks;
        }
        blocks := blocks[ids[i] := row];
      }
      NewRowsAll(s, entries, ids);
      ok := true;
    }

    /**
      RecordBackupPackAndBlocksContext. The rows are inserted under the UNIQUE constraints of the two tables; the
      first violation rolls everything back. `p` and `ids` are the generated row IDs.
     */
    method RecordPackAndBlocks(p: PackId, sha: Digest, entries: seq<Entry>, offsets: seq<nat>, ids: seq<BlockId>)
      returns (ok: bool)
      requires |ids| == |entries| && PayloadOffsets(entries, offsets)
      modifies this
      ensures ok <==> NewPackRow(old(s), p, sha) && NewBlockRows(old(s), entries, ids)
      ensures ok ==> s == RecordPack(old(s), p, sha, entries, ids)
      ensures !ok ==> s == old(s)
    {
      if |entries| == 0 || p in s.packs || exists q :: q in s.packs && s.packs[q].sha == sha {
        return false;
      }
      var blocks;
      ok, blocks := InsertBlocks(p, entries, offsets, ids);
      if ok {
        s := s.(packs := s.packs[p := PackRow(sha, Ready, EncodedSize(entries))], blocks := blocks);
      }
    }

    /**
      ReplaceBackupPackLocatorsContext. Each UPDATE must hit exactly one row of the old pack; the first that does
      not rolls everything back. Afterwards no dead row of the old pack is left behind.
     */
    method SwitchRows(source: PackId, p: PackId, sha: Digest, entries: seq<Entry>, offsets: seq<nat>, ids: seq<BlockId>)
      returns (ok: bool)
      requires source in s.packs && |ids| == |entries| && PayloadOffsets(entries, offsets)
      modifies this
      ensures ok <==> NewPackRow(old(s), p, sha) && LocatorsMatch(old(s), source, entries, ids)
      ensures ok ==> s == ReplaceLocators(old(s), source, p, sha, entries, ids)
      ensures !ok ==> s == old(s)
    {
      if |entries| == 0 || p in s.packs || exists q :: q in s.packs && s.packs[q].sha == sha {
        return false;
      }
      var blocks := s.blocks;
      for i := 0 to |entries|
        invariant s == old(s)
        invariant MatchRows(s.blocks, source, entries, ids, i)
        invariant blocks == Place(s.blocks, p, entries, ids, i)
      {
        UpdateAllowed(s.blocks, source, p, entries, ids, i);
        if !RowMatches(blocks, source, ids[i], entries[i].hash) {
          if LocatorsMatch(s, source, entries, ids) {
            MatchRowsPrefix(s, source, entries, ids, i + 1);
          }
          return false;
        }
        blocks := blocks[ids[i] := BlockRow(entries[i].hash, p, offsets[i], |entries[i].data|)];
      }
      MatchRowsAll(s, source, entries, ids);
      s := s.(packs := s.packs[p := PackRow(sha, Ready, EncodedSize(entries))], blocks := blocks);
      s := Purge(s, source);
      if s.packs[source].state == Ready {
        s := s.(packs := s.packs[source := s.packs[source].(state := DeletePending)]);
      }
      ok := true;
    }

    /** deleteRemotePack followed by MarkBackupPackDeletedContext; either may fail. */
    method DropPack(p: PackId) returns (removed: bool, marked: bool)
      requires p in s.packs
      modifies this
      ensures marked ==> removed
      ensures s == (if marked then MarkPackDeleted(old(s).(objects := old(s).objects - {old(s).packs[p].sha}), p)
                    else if removed then old(s).(objects := old(s).objects - {old(s).packs[p].sha})
                    else old(s))
    {
      removed, marked := false, false;
      if * {
        return;
      }
      s := s.(objects := s.objects - {s.packs[p].sha});
      removed := true;
      if * {
        return;
      }
      s := MarkPackDeleted(s, p);
      marked := true;
    }
  }

  /** The row an UPDATE of the locator switch selects: by ID, old pack and hash. */
  predicate RowMatches(blocks: Blocks, source: PackId, id: BlockId, hash: Digest) {
    InPack(blocks, id, source) && blocks[id].sha == hash
  }

  /** The first n updates all hit: the prefix form of LocatorsMatch. */
  predicate MatchRows(blocks: Blocks, source: PackId, entries: seq<Entry>, ids: seq<BlockId>, n: nat)
    requires n <= |ids| == |entries|
  {
    n == 0 ||
    (&& MatchRows(blocks, source, entries, ids, n - 1)
     && RowMatches(blocks, source, ids[n - 1], entries[n - 1].hash)
     && !Among(ids, n - 1, ids[n - 1]))
  }

  lemma {:induction false} MatchRowsEach(blocks: Blocks, source: PackId, entries: seq<Entry>, ids: seq<BlockId>, n: nat)
    requires n <= |ids| == |entries| && MatchRows(blocks, source, entries, ids, n)
    ensures NoRepeat(ids, n)
    ensures forall i :: 0 <= i < n ==> RowMatches(blocks, source, ids[i], entries[i].hash)
  {
    if n > 0 {
      MatchRowsEach(blocks, source, entries, ids, n - 1);
    }
  }

  /** Update n hits exactly when the row was not moved already and matches in the original table. */
  lemma UpdateAllowed(blocks: Blocks, source: PackId, p: PackId, entries: seq<Entry>, ids: seq<BlockId>, n: nat)
    requires n < |ids| == |entries| && MatchRows(blocks, source, entries, ids, n) && p != source
    ensures RowMatches(Place(blocks, p, entries, ids, n), source, ids[n], entries[n].hash)
            <==> MatchRows(blocks, source, entries, ids, n + 1)
  {
    MatchRowsEach(blocks, source, entries, ids, n);
    MovedAway(blocks, p, entries, ids, n, ids[n]);
  }

  lemma MovedAway(blocks: Blocks, p: PackId, entries: seq<Entry>, ids: seq<BlockId>, n: nat, b: BlockId)
    requires n <= |ids| == |entries| && NoRepeat(ids, n)
    ensures var placed := Place(blocks, p, entries, ids, n);
            if Among(ids, n, b) then b in placed && placed[b].pack == p
            else (b in placed <==> b in blocks) && (b in blocks ==> placed[b] == blocks[b])
  {
    PlaceContents(blocks, p, entries, ids, n);
  }

  lemma {:induction false} MatchRowsPrefix(s: State, source: PackId, entries: seq<Entry>, ids: seq<BlockId>, n: nat)
    requires n <= |ids| == |entries| && LocatorsMatch(s, source, entries, ids)
    ensures MatchRows(s.blocks, source, entries, ids, n)
  {
    if n > 0 {
      MatchRowsPrefix(s, source, entries, ids, n - 1);
    }
  }

  lemma MatchRowsAll(s: State, source: PackId, entries: seq<Entry>, ids: seq<BlockId>)
    requires |ids| == |entries| > 0
    ensures MatchRows(s.blocks, source, entries, ids, |ids|) <==> LocatorsMatch(s, source, entries, ids)
  {
    if MatchRows(s.blocks, source, entries, ids, |ids|) {
      MatchRowsEach(s.blocks, source, entries, ids, |ids|);
    } else if LocatorsMatch(s, source, entries, ids) {
      MatchRowsPrefix(s, source, entries, ids, |ids|);
    }
  }

  /** No row has this ID or this hash: the database accepts the INSERT. */
  predicate RowFree(blocks: Blocks, id: BlockId, hash: Digest) {
    id !in blocks && forall b :: b in blocks ==> blocks[b].sha != hash
  }

  predicate Avoids(entries: seq<Entry>, ids: seq<BlockId>, n: nat, id: BlockId, hash: Digest)
    requires n <= |ids| == |entries|
  {
    forall i :: 0 <= i < n ==> ids[i] != id && entries[i].hash != hash
  }

  /** The first n rows violate no constraint: the prefix form of NewBlockRows. */
  predicate NewRows(blocks: Blocks, entries: seq<Entry>, ids: seq<BlockId>, n: nat)
    requires n <= |ids| == |entries|
  {
    n == 0 ||
    (&& NewRows(blocks, entries, ids, n - 1)
     && RowFree(blocks, ids[n - 1], entries[n - 1].hash)
     && Avoids(entries, ids, n - 1, ids[n - 1], entries[n - 1].hash))
  }

  lemma FreeInsert(blocks: Blocks, k: BlockId, row: BlockRow, id: BlockId, hash: Digest)
    requires k !in blocks
    ensures RowFree(blocks[k := row], id, hash) <==> RowFree(blocks, id, hash) && k != id && row.sha != hash
  {
    assert k in blocks[k := row];
    if RowFree(blocks[k := row], id, hash) {
      forall b | b in blocks
        ensures blocks[b].sha != hash
      {
        assert b in blocks[k := row] && blocks[k := row][b] == blocks[b];
      }
    }
  }

  lemma AvoidsStep(entries: seq<Entry>, ids: seq<BlockId>, n: nat, id: BlockId, hash: Digest)
    requires 0 < n <= |ids| == |entries|
    ensures Avoids(entries, ids, n, id, hash) <==>
            Avoids(entries, ids, n - 1, id, hash) && ids[n - 1] != id && entries[n - 1].hash != hash
  {
  }

  lemma {:induction false} FreeAfter(blocks: Blocks, p: PackId, entries: seq<Entry>, ids: seq<BlockId>, n: nat,
                                     id: BlockId, hash: Digest)
    requires n <= |ids| == |entries| && NewRows(blocks, entries, ids, n)
    ensures RowFree(Place(blocks, p, entries, ids, n), id, hash) <==>
            RowFree(blocks, id, hash) && Avoids(entries, ids, n, id, hash)
  {
    if n > 0 {
      FreeAfter(blocks, p, entries, ids, n - 1, id, hash);
      FreeAfter(blocks, p, entries, ids, n - 1, ids[n - 1], entries[n - 1].hash);
      FreeInsert(Place(blocks, p, entries, ids, n - 1), ids[n - 1], LocatorOf(p, entries, n - 1), id, hash);
      AvoidsStep(entries, ids, n, id, hash);
    }
  }

  /** The database accepts row n exactly when the first n + 1 rows violate no constraint. */
  lemma InsertAllowed(blocks: Blocks, p: PackId, entries: seq<Entry>, ids: seq<BlockId>, n: nat)
    requires n < |ids| == |entries| && NewRows(blocks, entries, ids, n)
    ensures RowFree(Place(blocks, p, entries, ids, n), ids[n], entries[n].hash) <==>
      NewRows(blocks, entries, ids, n + 1)
  {
    FreeAfter(blocks, p, entries, ids, n, ids[n], entries[n].hash);
  }

  lemma {:induction false} NewRowsEach(blocks: Blocks, entries: seq<Entry>, ids: seq<BlockId>, n: nat)
    requires n <= |ids| == |entries| && NewRows(blocks, entries, ids, n)
    ensures forall i :: 0 <= i < n ==>
      RowFree(blocks, ids[i], entries[i].hash) && Avoids(entries, ids, i, ids[i], entries[i].hash)
  {
    if n > 0 {
      NewRowsEach(blocks, entries, ids, n - 1);
    }
  }

  lemma {:induction false} NewRowsPrefix(s: State, entries: seq<Entry>, ids: seq<BlockId>, n: nat)
    requires n <= |ids| == |entries| && NewBlockRows(s, entries, ids)
    ensures NewRows(s.blocks, entries, ids, n)
  {
    if n > 0 {
      NewRowsPrefix(s, entries, ids, n - 1);
    }
  }

  lemma NewRowsAll(s: State, entries: seq<Entry>, ids: seq<BlockId>)
    requires |ids| == |entries| > 0
    ensures NewRows(s.blocks, entries, ids, |ids|) <==> NewBlockRows(s, entries, ids)
  {
    if NewRows(s.blocks, entries, ids, |ids|) {
      NewRowsEach(s.blocks, entries, ids, |ids|);
    } else if NewBlockRows(s, entries, ids) {
      NewRowsPrefix(s, entries, ids, |ids|);
    }
  }
}
