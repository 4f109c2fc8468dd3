/** Retention and compaction: which snapshots stay, what compaction preserves, and why its chain ends. */
module Retention {
  import opened Bytes
  import opened PackFormat
  import opened Repository
  import opened RepositorySafety
  import opened SnapshotTheorems
  import opened SnapshotDurability

  // ---- Retention keeps the newest --------------------------------------------------------------

  ghost function VisibleSet(snaps: Snaps): set<SnapId> {
    set n | n in snaps && Visible(snaps, n)
  }

  /** Those of the snapshots in `all` that fewer than `keep` others in `all` are newer than. */
  ghost function Newest(snaps: Snaps, all: set<SnapId>, keep: nat): set<SnapId>
    requires all <= snaps.Keys
  {
    set n | n in all && |NewerIn(snaps, all, n)| < keep
  }

  ghost function NewerIn(snaps: Snaps, all: set<SnapId>, n: SnapId): set<SnapId>
    requires all <= snaps.Keys && n in snaps
  {
    set m | m in all && snaps[m].created > snaps[n].created
  }

  lemma Oldest(snaps: Snaps, all: set<SnapId>) returns (oldest: SnapId)
    requires all <= snaps.Keys && all != {}
    ensures oldest in all && forall n :: n in all ==> snaps[oldest].created <= snaps[n].created
  {
    var n :| n in all;
    if all == {n} {
      oldest := n;
    } else {
      assert all - {n} != {};
      var rest := Oldest(snaps, all - {n});
      oldest := if snaps[n].created < snaps[rest].created then n else rest;
      assert forall m :: m in all ==> m == n || m in all - {n};
    }
  }

  lemma {:induction false} NewestCount(snaps: Snaps, all: set<SnapId>, keep: nat)
    requires all <= snaps.Keys && UniqueSnaps(snaps)
    ensures |Newest(snaps, all, keep)| == if keep < |all| then keep else |all|
    decreases |all|
  {
    if all == {} {
      assert Newest(snaps, all, keep) == {};
    } else {
      var oldest := Oldest(snaps, all);
      var rest := all - {oldest};
      NewestCount(snaps, rest, keep);
      NewestStep(snaps, all, oldest, keep);
    }
  }

  lemma NewestStep(snaps: Snaps, all: set<SnapId>, oldest: SnapId, keep: nat)
    requires all <= snaps.Keys && UniqueSnaps(snaps)
    requires oldest in all && forall n :: n in all ==> snaps[oldest].created <= snaps[n].created
    ensures var rest := all - {oldest};
            Newest(snaps, all, keep) == Newest(snaps, rest, keep) + if |rest| < keep then {oldest} else {}
  {
    var rest := all - {oldest};
    forall n | n in rest
      ensures NewerIn(snaps, all, n) == NewerIn(snaps, rest, n)
    {
    }
    assert NewerIn(snaps, all, oldest) == rest;
  }

  /** Expiry keeps exactly the newest min(keep, n) visible snapshots and touches nothing else. */
  lemma RetentionKeepsNewest(s: State, keep: nat)
    requires UniqueSnaps(s.snaps)
    ensures var before, after := VisibleSet(s.snaps), VisibleSet(ExpireSnapshots(s, keep).snaps);
            && after <= before
            && |after| == (if keep < |before| then keep else |before|)
            && (forall kept, gone :: kept in after && gone in before - after ==>
                  s.snaps[gone].created < s.snaps[kept].created)
    ensures forall n :: n in s.snaps && !Visible(s.snaps, n) ==> ExpireSnapshots(s, keep).snaps[n] == s.snaps[n]
  {
    var before, after := VisibleSet(s.snaps), VisibleSet(ExpireSnapshots(s, keep).snaps);
    forall n | n in before
      ensures Newer(s, n) == NewerIn(s.snaps, before, n)
    {
    }
    assert after == Newest(s.snaps, before, keep);
    NewestCount(s.snaps, before, keep);
    forall kept, gone | kept in after && gone in before - after
      ensures s.snaps[gone].created < s.snaps[kept].created
    {
      if s.snaps[gone].created >= s.snaps[kept].created {
        SubsetSize(NewerIn(s.snaps, before, gone), NewerIn(s.snaps, before, kept));
      }
    }
  }

  // ---- The compaction chain ends ---------------------------------------------------------------

  ghost predicate HoldsLive(s: State, p: PackId) {
    exists b :: InPack(s.blocks, b, p) && Live(s.links, s.snaps, b)
  }

  ghost predicate HoldsDead(s: State, p: PackId) {
    exists b :: InPack(s.blocks, b, p) && !Live(s.links, s.snaps, b)
  }

  /** FindBackupCompactionCandidateContext: READY packs with both a live and a dead block. */
  ghost predicate Candidate(s: State, p: PackId) {
    HasState(s.packs, p, Ready) && HoldsLive(s, p) && HoldsDead(s, p)
  }

  ghost function Candidates(s: State): set<PackId> {
    set p | p in s.packs && Candidate(s, p)
  }

  /** Purging a pack changes neither which blocks are live nor any row of another pack. */
  lemma PurgeLive(s: State, p: PackId, b: BlockId)
    ensures Live(Purge(s, p).links, s.snaps, b) <==> Live(s.links, s.snaps, b)
  {
    var t := Purge(s, p);
    if Live(s.links, s.snaps, b) {
      var k :| k in s.links && s.links[k] == b && Visible(s.snaps, k.item.snap);
      assert k in t.links;
    }
  }

  lemma PurgeCandidates(s: State, p: PackId, q: PackId)
    requires q != p
    ensures HoldsLive(Purge(s, p), q) ==> HoldsLive(s, q)
    ensures HoldsDead(Purge(s, p), q) ==> HoldsDead(s, q)
  {
    forall b {
      PurgeLive(s, p, b);
    }
    var t := Purge(s, p);
    if HoldsLive(t, q) {
      var b :| InPack(t.blocks, b, q) && Live(t.links, t.snaps, b);
      assert InPack(s.blocks, b, q);
    }
    if HoldsDead(t, q) {
      var b :| InPack(t.blocks, b, q) && !Live(t.links, t.snaps, b);
      assert InPack(s.blocks, b, q);
    }
  }

  /** After the move, the new pack holds live blocks only, and no third pack became a candidate. */
  lemma MoveCandidates(s: State, source: PackId, p: PackId, sha: Digest, entries: seq<Entry>, ids: seq<BlockId>,
                       q: PackId)
    requires LocatorsMatch(s, source, entries, ids) && MovesLive(s, source, ids) && p != source && q != source
    requires BlocksHavePacks(s.blocks, s.packs) && p !in s.packs
    ensures var u := RecordPack(s, p, sha, entries, ids);
            && (q != p && HoldsLive(u, q) ==> HoldsLive(s, q))
            && (HoldsDead(u, q) ==> q != p && HoldsDead(s, q))
  {
    var u := RecordPack(s, p, sha, entries, ids);
    PlaceIsPlaced(s.blocks, p, entries, ids);
    forall b | b in u.blocks
      ensures PlacedRow(s.blocks, p, entries, ids, b, u.blocks[b])
    {
    }
    if HoldsLive(u, q) && q != p {
      var b :| InPack(u.blocks, b, q) && Live(u.links, u.snaps, b);
      assert InPack(s.blocks, b, q);
    }
    if HoldsDead(u, q) {
      var b :| InPack(u.blocks, b, q) && !Live(u.links, u.snaps, b);
      assert b !in ids;
      assert InPack(s.blocks, b, q);
    }
  }

  /** The tables after the switch, in terms of those after the move. */
  lemma SwitchTables(s: State, source: PackId, p: PackId, sha: Digest, entries: seq<Entry>, ids: seq<BlockId>, t: State)
    requires SwitchStep(s, source, p, sha, entries, ids, t)
    ensures var v := Purge(RecordPack(s, p, sha, entries, ids), source);
            && t.blocks == v.blocks && t.links == v.links && t.snaps == v.snaps == s.snaps
            && t.packs == s.packs[p := PackRow(sha, Ready, EncodedSize(entries))]
                                 [source := s.packs[source].(state := DeletePending)]
  {
  }

  lemma CandidateBefore(s: State, source: PackId, p: PackId, sha: Digest, entries: seq<Entry>, ids: seq<BlockId>,
                        t: State, q: PackId)
    requires BlocksHavePacks(s.blocks, s.packs) && SwitchStep(s, source, p, sha, entries, ids, t)
    requires Candidate(t, q)
    ensures q != source && Candidate(s, q)
  {
    SwitchTables(s, source, p, sha, entries, ids, t);
    var u := RecordPack(s, p, sha, entries, ids);
    SameCandidate(t, Purge(u, source), q);
    PurgeCandidates(u, source, q);
    MoveCandidates(s, source, p, sha, entries, ids, q);
  }

  lemma CandidatesShrink(s: State, source: PackId, p: PackId, sha: Digest, entries: seq<Entry>, ids: seq<BlockId>,
                         t: State)
    requires BlocksHavePacks(s.blocks, s.packs) && SwitchStep(s, source, p, sha, entries, ids, t)
    ensures Candidates(t) <= Candidates(s) - {source}
  {
    forall q | Candidate(t, q)
      ensures q != source && Candidate(s, q)
    {
      CandidateBefore(s, source, p, sha, entries, ids, t, q);
    }
  }

  /** Each successful compaction removes its source from the candidates and adds none. */
  lemma CompactionProgress(s: State, source: PackId, p: PackId, sha: Digest, entries: seq<Entry>, ids: seq<BlockId>,
                           t: State)
    requires BlocksHavePacks(s.blocks, s.packs) && SwitchStep(s, source, p, sha, entries, ids, t)
    requires source in Candidates(s)
    ensures Candidates(t) <= Candidates(s) - {source}
    ensures |Candidates(t)| < |Candidates(s)|
  {
    CandidatesShrink(s, source, p, sha, entries, ids, t);
    var before, after := Candidates(s), Candidates(t);
    SubsetSize(after, before - {source});
  }

  lemma SameCandidate(s: State, t: State, q: PackId)
    requires s.blocks == t.blocks && s.links == t.links && s.snaps == t.snaps
    ensures HoldsLive(s, q) == HoldsLive(t, q) && HoldsDead(s, q) == HoldsDead(t, q)
  {
  }

  lemma MarkDeletedCandidates(s: State, p: PackId, t: State)
    requires MarkDeletedStep(s, p, t)
    ensures Candidates(t) <= Candidates(s)
  {
    forall q | q in Candidates(t)
      ensures q in Candidates(s)
    {
      SameCandidate(t, Purge(s, p), q);
      PurgeCandidates(s, p, q);
    }
  }

  lemma TablesOnly(s: State, t: State)
    requires s.packs == t.packs && s.blocks == t.blocks && s.links == t.links && s.snaps == t.snaps
    ensures Candidates(t) == Candidates(s)
  {
    forall q {
      SameCandidate(s, t, q);
    }
  }

  /** The steps of a chain of compaction passes: no snapshot changes, and each switch is of a candidate. */
  ghost predicate ChainStep(s: State, step: Step) {
    || step.StartMaintenance? || step.Stop? || step.Upload? || step.PartialUpload? || step.Condemn?
    || step.DeleteObject? || step.MarkDeleted?
    || (step.SwitchLocators? && step.source in Candidates(s))
  }

  lemma ChainStepCandidates(s: State, step: Step, t: State)
    requires BlocksHavePacks(s.blocks, s.packs) && Next(s, step, t) && ChainStep(s, step)
    ensures |Candidates(t)| + (if step.SwitchLocators? then 1 else 0) <= |Candidates(s)|
  {
    if step.SwitchLocators? {
      CompactionProgress(s, step.source, step.pack, step.sha, step.entries, step.ids, t);
    } else if step.MarkDeleted? {
      MarkDeletedCandidates(s, step.pack, t);
      SubsetSize(Candidates(t), Candidates(s));
    } else {
      TablesOnly(s, t);
    }
  }

  function Switches(steps: seq<Step>): nat {
    if steps == [] then 0
    else Switches(steps[..|steps| - 1]) + if steps[|steps| - 1].SwitchLocators? then 1 else 0
  }

  /** A segment of a run that starts in a state with the invariant. */
  ghost predicate IsSegment(states: seq<State>, steps: seq<Step>) {
    && |states| == |steps| + 1 && Inv(states[0])
    && forall i :: 0 <= i < |steps| ==> Next(states[i], steps[i], states[i + 1])
  }

  /** Compaction re-enqueues itself at most as often as there were candidates when the chain began. */
  lemma {:induction false} CompactionChainEnds(states: seq<State>, steps: seq<Step>)
    requires CollisionFree() && IsSegment(states, steps)
    requires forall i :: 0 <= i < |steps| ==> ChainStep(states[i], steps[i])
    ensures Inv(states[|steps|])
    ensures Switches(steps) + |Candidates(states[|steps|])| <= |Candidates(states[0])|
    decreases |steps|
  {
    if |steps| > 0 {
      var n := |steps| - 1;
      CompactionChainEnds(states[..|steps|], steps[..n]);
      StepKeepsInv(states[n], steps[n], states[n + 1]);
      ChainStepCandidates(states[n], steps[n], states[n + 1]);
    }
  }

  // ---- Compaction preserves content at every crash point ---------------------------------------

  /** Any restore of the item that is planned now yields these blocks. */
  ghost predicate Restores(t: State, item: ItemKey, parts: seq<Bytes>) {
    forall recipes :: PlannedFrom(t, item, recipes) ==>
      |recipes| == |parts| && forall j :: 0 <= j < |recipes| ==> Delivers(t.objects, recipes[j], parts[j])
  }

  /** Whatever was visible in s is visible in t and restores to the blocks streamed for it. */
  ghost predicate SameContent(s: State, t: State) {
    forall item :: item in s.items && Visible(s.snaps, item.snap) ==>
      item in t.items && Visible(t.snaps, item.snap) && Restores(t, item, s.items[item].parts)
  }

  lemma SafeRestores(t: State, item: ItemKey)
    requires CollisionFree() && Inv(t) && Safe(t) && item in t.items && Visible(t.snaps, item.snap)
    ensures Restores(t, item, t.items[item].parts)
  {
    SafeItemPresent(t, item);
    forall recipes | PlannedFrom(t, item, recipes)
      ensures |recipes| == |t.items[item].parts|
      ensures forall j :: 0 <= j < |recipes| ==> Delivers(t.objects, recipes[j], t.items[item].parts[j])
    {
      VisibleItemDelivers(t, item, recipes);
    }
  }

  lemma SafeSameContent(s: State, t: State)
    requires CollisionFree() && Inv(t) && Safe(t) && t.items == s.items && t.snaps == s.snaps
    ensures SameContent(s, t)
  {
    forall item | item in s.items && Visible(s.snaps, item.snap)
      ensures Restores(t, item, s.items[item].parts)
    {
      SafeRestores(t, item);
    }
  }

  predicate CompactionStep(step: Step) {
    step.Upload? || step.PartialUpload? || step.SwitchLocators? || step.DeleteObject? || step.MarkDeleted?
  }

  lemma SameRows(s: State, step: Step, t: State)
    requires Next(s, step, t) && CompactionStep(step)
    ensures t.items == s.items && t.snaps == s.snaps
  {
  }

  lemma StaysSafe(s: State, step: Step, t: State)
    requires CollisionFree() && Inv(s) && Safe(s) && Next(s, step, t) && CompactionStep(step)
    ensures Inv(t) && Safe(t)
  {
    StepKeepsInv(s, step, t);
    StepKeepsSafe(s, step, t);
  }

  ghost predicate Stays(s: State, t: State) {
    Inv(t) && Safe(t) && t.items == s.items && t.snaps == s.snaps
  }

  lemma CompactionStepStays(s: State, step: Step, t: State)
    requires CollisionFree() && Inv(s) && Safe(s) && Next(s, step, t) && CompactionStep(step)
    ensures Stays(s, t)
  {
    StaysSafe(s, step, t);
    SameRows(s, step, t);
  }

  lemma UploadStays(s: State, bytes: Bytes, t: State)
    requires CollisionFree() && Inv(s) && Safe(s) && UploadStep(s, bytes, t)
    ensures Stays(s, t)
  {
    CompactionStepStays(s, Upload(bytes), t);
  }

  lemma SwitchStays(s: State, source: PackId, p: PackId, sha: Digest, entries: seq<Entry>, ids: seq<BlockId>, t: State)
    requires CollisionFree() && Inv(s) && Safe(s) && SwitchStep(s, source, p, sha, entries, ids, t)
    ensures Stays(s, t)
  {
    CompactionStepStays(s, SwitchLocators(source, p, sha, entries, ids), t);
  }

  lemma DeleteStays(s: State, p: PackId, t: State)
    requires CollisionFree() && Inv(s) && Safe(s) && DeleteObjectStep(s, p, t)
    ensures Stays(s, t)
  {
    CompactionStepStays(s, DeleteObject(p), t);
  }

  lemma MarkStays(s: State, p: PackId, t: State)
    requires CollisionFree() && Inv(s) && Safe(s) && MarkDeletedStep(s, p, t)
    ensures Stays(s, t)
  {
    CompactionStepStays(s, MarkDeleted(p), t);
  }

  /**
    Wherever a compaction stops - within or after the upload, after the locator switch, the remote delete or the final
    mark - every visible item still restores to the same blocks; after the switch the old pack is reclaimable.
   */
  lemma CompactionCrashPoints(s: State, bytes: Bytes, source: PackId, p: PackId, entries: seq<Entry>, ids: seq<BlockId>,
                              part: Bytes, broken: State, uploaded: State, switched: State, removed: State,
                              marked: State)
    requires CollisionFree() && Inv(s) && Safe(s)
    requires PartialUploadStep(s, Sha256(bytes), part, broken)
    requires UploadStep(s, bytes, uploaded)
    requires SwitchStep(uploaded, source, p, Sha256(bytes), entries, ids, switched)
    requires DeleteObjectStep(switched, source, removed)
    requires MarkDeletedStep(removed, source, marked)
    ensures SameContent(s, broken)
    ensures SameContent(s, uploaded) && SameContent(s, switched) && SameContent(s, removed) && SameContent(s, marked)
    ensures Reclaimable(switched, source) && Reclaimable(removed, source)
  {
    CompactionStepStays(s, PartialUpload(Sha256(bytes), part), broken);
    SafeSameContent(s, broken);
    UploadStays(s, bytes, uploaded);
    SwitchStays(uploaded, source, p, Sha256(bytes), entries, ids, switched);
    DeleteStays(switched, source, removed);
    MarkStays(removed, source, marked);
    SafeSameContent(s, uploaded);
    SafeSameContent(s, switched);
    SafeSameContent(s, removed);
    SafeSameContent(s, marked);
    PendingAfterSwitch(uploaded, source, p, Sha256(bytes), entries, ids, switched, removed);
  }

  lemma PendingAfterSwitch(s: State, source: PackId, p: PackId, sha: Digest, entries: seq<Entry>, ids: seq<BlockId>,
                           switched: State, removed: State)
    requires SwitchStep(s, source, p, sha, entries, ids, switched) && DeleteObjectStep(switched, source, removed)
    requires Inv(switched) && Inv(removed)
    ensures Reclaimable(switched, source) && Reclaimable(removed, source)
  {
    SwitchTables(s, source, p, sha, entries, ids, switched);
    DeletePendingReclaimable(switched, source);
    DeletePendingReclaimable(removed, source);
  }
}
