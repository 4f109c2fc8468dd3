/** compactOnePack as code: every path through it, failures included, is a path of the transition system. */
module Compactor {
  import opened Bytes
  import opened PackFormat
  import opened Repository
  import opened RepositorySafety
  import opened Sessions

  /** ListBackupLiveBlocksContext. */
  function LiveBlocks(s: State, source: PackId): set<BlockId> {
    LiveIn(s.blocks, s.links, s.snaps, source)
  }

  function LiveIn(blocks: Blocks, links: Links, snaps: Snaps, source: PackId): set<BlockId> {
    set b | b in blocks && InPack(blocks, b, source) && Live(links, snaps, b)
  }

  datatype Outcome = Done | Interrupted | Refused

  // ---- Selecting the live entries --------------------------------------------------------------

  predicate Selected(s: State, live: set<BlockId>, entries: seq<Entry>, ids: seq<BlockId>) {
    && |ids| == |entries|
    && (forall e :: e in entries ==> WellFormed(e))
    && forall i :: 0 <= i < |ids| ==> ids[i] in live && ids[i] in s.blocks && s.blocks[ids[i]].sha == entries[i].hash
  }

  lemma SelectMore(s: State, live: set<BlockId>, entries: seq<Entry>, ids: seq<BlockId>, e: Entry, b: BlockId)
    requires Selected(s, live, entries, ids) && WellFormed(e) && b in live && b in s.blocks && s.blocks[b].sha == e.hash
    ensures Selected(s, live, entries + [e], ids + [b])
  {
  }

  /** The callback of the first validation: keeps, in pack order, the entries some live block names. */
  method SelectLive(s: State, live: set<BlockId>, all: seq<Entry>)
    returns (ok: bool, entries: seq<Entry>, ids: seq<BlockId>)
    requires live <= s.blocks.Keys && Encodable(all)
    ensures ok ==> Selected(s, live, entries, ids) && Encodable(entries) && forall e :: e in entries ==> e in all
  {
    entries, ids := [], [];
    for i := 0 to |all|
      invariant Selected(s, live, entries, ids)
      invariant |entries| <= i && |Frames(entries)| <= |Frames(all[..i])|
      invariant forall e :: e in entries ==> e in all
    {
      assert all[i] in all;
      FramesSnoc(all[..i], all[i]);
      assert all[..i] + [all[i]] == all[..i + 1];
      var rows := set b | b in live && s.blocks[b].sha == all[i].hash;
      if rows != {} {
        var b :| b in rows;
        if s.blocks[b].length != |all[i].data| {
          return false, entries, ids;
        }
        FramesSnoc(entries, all[i]);
        SelectMore(s, live, entries, ids, all[i], b);
        entries, ids := entries + [all[i]], ids + [b];
      }
    }
    assert all[..|all|] == all;
    ok := true;
  }

  lemma {:induction false} DistinctCard(ids: seq<BlockId>)
    requires Distinct(ids)
    ensures |(set b | b in ids)| == |ids|
  {
    if ids != [] {
      var init, last := ids[..|ids| - 1], ids[|ids| - 1];
      DistinctCard(init);
      assert (set b | b in ids) == (set b | b in init) + {last};
    } else {
      assert (set b | b in ids) == {};
    }
  }

  lemma SubsetEqual<T>(a: set<T>, b: set<T>)
    requires a <= b && |a| == |b|
    ensures a == b
  {
    assert b == a + (b - a);
    assert |b - a| == 0;
  }

  /** As many distinct live blocks as there are live blocks: all of them. */
  lemma AllLiveMoved(s: State, source: PackId, entries: seq<Entry>, ids: seq<BlockId>)
    requires Selected(s, LiveBlocks(s, source), entries, ids) && Distinct(ids) && |ids| == |LiveBlocks(s, source)|
    ensures MovesLive(s, source, ids)
  {
    var moved := set b | b in ids;
    var live := LiveBlocks(s, source);
    DistinctCard(ids);
    SubsetEqual(moved, live);
    forall b
      ensures b in ids <==> InPack(s.blocks, b, source) && Live(s.links, s.snaps, b)
    {
      assert b in ids <==> b in moved;
      assert b in live <==> InPack(s.blocks, b, source) && Live(s.links, s.snaps, b);
    }
  }

  /** Every block that was live in the old pack is catalogued, with its hash, in another READY pack. */
  ghost predicate LiveMoved(before: State, source: PackId, s: State) {
    MovedFrom(before.blocks, LiveBlocks(before, source), source, s)
  }

  ghost predicate MovedFrom(blocks: Blocks, live: set<BlockId>, source: PackId, s: State)
    requires live <= blocks.Keys
  {
    forall b :: b in live ==>
      && b in s.blocks && s.blocks[b].sha == blocks[b].sha
      && s.blocks[b].pack != source && HasState(s.packs, s.blocks[b].pack, Ready)
  }

  lemma RecordMoves(s: State, source: PackId, p: PackId, sha: Digest, entries: seq<Entry>, ids: seq<BlockId>)
    requires p != source && LocatorsMatch(s, source, entries, ids) && MovesLive(s, source, ids)
    ensures LiveMoved(s, source, RecordPack(s, p, sha, entries, ids))
  {
    PlaceContents(s.blocks, p, entries, ids, |ids|);
    forall b | b in LiveBlocks(s, source)
      ensures exists i :: 0 <= i < |ids| && ids[i] == b
    {
      assert b in ids;
    }
  }

  lemma PurgeKeepsMoved(before: State, source: PackId, s: State)
    requires LiveMoved(before, source, s)
    ensures LiveMoved(before, source, Purge(s, source))
  {
  }

  lemma SwitchMoves(s: State, source: PackId, p: PackId, sha: Digest, entries: seq<Entry>, ids: seq<BlockId>)
    requires source in s.packs && p != source && LocatorsMatch(s, source, entries, ids) && MovesLive(s, source, ids)
    ensures LiveMoved(s, source, ReplaceLocators(s, source, p, sha, entries, ids))
  {
    RecordMoves(s, source, p, sha, entries, ids);
    PurgeKeepsMoved(s, source, RecordPack(s, p, sha, entries, ids));
  }

  /** Deleting the old pack leaves them alone. */
  lemma DropKeepsMoved(before: State, source: PackId, s: State, t: State)
    requires LiveMoved(before, source, s) && source in s.packs
    requires t == s || t == s.(objects := s.objects - {s.packs[source].sha})
             || t == MarkPackDeleted(s.(objects := s.objects - {s.packs[source].sha}), source)
    ensures LiveMoved(before, source, t)
  {
  }

  // ---- The steps of the code are steps of the system -------------------------------------------

  lemma SwitchPath(start: State, s: State, source: PackId, p: PackId, sha: Digest, entries: seq<Entry>,
                   ids: seq<BlockId>, t: State)
    requires Evolves(start, s) && SwitchStep(s, source, p, sha, entries, ids, t)
    ensures Evolves(start, t)
  {
    EvolvesStep(start, s, SwitchLocators(source, p, sha, entries, ids), t);
  }

  lemma DeletePath(start: State, s: State, p: PackId, t: State)
    requires Evolves(start, s) && DeleteObjectStep(s, p, t)
    ensures Evolves(start, t)
  {
    EvolvesStep(start, s, DeleteObject(p), t);
  }

  lemma MarkPath(start: State, s: State, p: PackId, t: State)
    requires Evolves(start, s) && MarkDeletedStep(s, p, t)
    ensures Evolves(start, t)
  {
    EvolvesStep(start, s, MarkDeleted(p), t);
  }

  function Uploaded(s: State, entries: seq<Entry>): State {
    s.(objects := s.objects[Sha256(PackBytes(entries)) := PackBytes(entries)])
  }

  /** The rows once the locators are switched to the uploaded replacement. */
  function Switched(s: State, source: PackId, p: PackId, entries: seq<Entry>, ids: seq<BlockId>): State
    requires s.actor.Maintenance? && source in s.packs && p != source && LocatorsMatch(s, source, entries, ids)
  {
    ReplaceLocators(s, source, p, Sha256(PackBytes(entries)), entries, ids)
      .(actor := Maintenance(s.actor.condemned + {source}))
  }

  function Removed(s: State, source: PackId): State
    requires source in s.packs
  {
    s.(objects := s.objects - {s.packs[source].sha})
  }

  /** Where a compaction ends that got past its refusals: switched, and then removed, and then marked, or not. */
  ghost predicate EndsAt(s: State, source: PackId, entries: seq<Entry>, ids: seq<BlockId>, p: PackId, outcome: Outcome,
                         t: State)
    requires s.actor.Maintenance? && source in s.packs
  {
    && NewPackRow(s, p, Sha256(PackBytes(entries))) && LocatorsMatch(s, source, entries, ids)
    && DropsTo(Switched(Uploaded(s, entries), source, p, entries, ids), source, outcome, t)
  }

  ghost predicate DropsTo(s: State, source: PackId, outcome: Outcome, t: State)
    requires source in s.packs
  {
    match outcome
    case Done => t == MarkPackDeleted(Removed(s, source), source)
    case Interrupted => t == s || t == Removed(s, source)
    case Refused => false
  }

  ghost predicate Compacted(s: State, source: PackId, entries: seq<Entry>, ids: seq<BlockId>, outcome: Outcome,
                            t: State)
    requires s.actor.Maintenance? && source in s.packs
  {
    exists p :: EndsAt(s, source, entries, ids, p, outcome, t)
  }

  /** The entries moved are all those of the old pack that a live block names. */
  ghost predicate MovedEntries(s: State, source: PackId, entries: seq<Entry>, outcome: Outcome, t: State)
    requires s.actor.Maintenance? && source in s.packs
  {
    exists ids :: Selected(s, LiveBlocks(s, source), entries, ids) && |ids| == |LiveBlocks(s, source)|
                  && Compacted(s, source, entries, ids, outcome, t)
  }

  /** The entries come from the object of the old pack. */
  ghost predicate TakenFrom(s: State, source: PackId, entries: seq<Entry>)
    requires source in s.packs
  {
    s.packs[source].sha in s.objects &&
      exists all :: IsPackOf(s.objects[s.packs[source].sha], all) && forall e :: e in entries ==> e in all
  }

  /** The replacement pack and its payloads belong to the data in play. */
  ghost predicate AllInPlay(entries: seq<Entry>) {
    PackBytes(entries) in InPlay && forall e :: e in entries ==> e.data in InPlay
  }

  /**
    compactOnePack on a candidate pack. `entries` is what it moves: nothing, or entries of the old pack. If these, and
    the replacement made of them, lie in the data in play, then wherever it stops the repository got there by steps of
    the transition system. A refusal leaves the catalog alone and at most tries the upload; otherwise every live entry
    is moved, and the state is one of three: switched, removed, or, when it reports Done, marked DELETED.
   */
  method CompactOnePack(session: Session, source: PackId) returns (outcome: Outcome, ghost entries: seq<Entry>)
    requires session.s.actor.Maintenance? && HasState(session.s.packs, source, Ready)
    modifies session
    ensures AllInPlay(entries) ==> Evolves(old(session.s), session.s)
    ensures entries == [] || TakenFrom(old(session.s), source, entries)
    ensures outcome == Refused ==> UploadTried(old(session.s), PackBytes(entries), session.s)
    ensures outcome != Refused ==> MovedEntries(old(session.s), source, entries, outcome, session.s)
    ensures outcome != Refused ==> LiveMoved(old(session.s), source, session.s)
    ensures outcome == Done ==> HasState(session.s.packs, source, Deleted)
  {
    ghost var start := session.s;
    EvolvesRefl(start);
    entries := [];
    var live := LiveBlocks(session.s, source);
    var remote := session.Fetch(session.s.packs[source].sha);
    if remote.Absent? {
      return Refused, entries;
    }
    var validated := ValidatePack(remote.bytes, session.s.packs[source].sha);
    if validated.Rejected? {
      return Refused, entries;
    }
    var ok, chosen, ids := SelectLive(session.s, live, validated.entries);
    if !ok || |chosen| != |live| {
      return Refused, entries;
    }
    entries := chosen;
    outcome := MoveToNewPack(session, source, chosen, ids);
  }

  /** The second half: store the replacement, switch the locators, drop the old pack. */
  method MoveToNewPack(session: Session, source: PackId, entries: seq<Entry>, ids: seq<BlockId>)
    returns (outcome: Outcome)
    requires session.s.actor.Maintenance? && HasState(session.s.packs, source, Ready)
    requires Encodable(entries) && Selected(session.s, LiveBlocks(session.s, source), entries, ids)
    requires |ids| == |LiveBlocks(session.s, source)|
    modifies session
    ensures AllInPlay(entries) ==> Evolves(old(session.s), session.s)
    ensures outcome == Refused ==> UploadTried(old(session.s), PackBytes(entries), session.s)
    ensures outcome != Refused ==> Compacted(old(session.s), source, entries, ids, outcome, session.s)
    ensures outcome != Refused ==> LiveMoved(old(session.s), source, session.s)
    ensures outcome == Done ==> HasState(session.s.packs, source, Deleted)
  {
    ghost var start := session.s;
    EvolvesRefl(start);
    var ok, id, offsets := session.StorePack(entries);
    if AllInPlay(entries) {
      UploadEvolves(start, start, PackBytes(entries), session.s);
    }
    if !ok {
      return Refused;
    }
    outcome := SwitchAndDrop(session, source, id, entries, offsets, ids, start);
  }

  /** The replacement is stored: switch the locators and drop the old pack. */
  method SwitchAndDrop(session: Session, source: PackId, id: Digest, entries: seq<Entry>, offsets: seq<nat>,
                       ids: seq<BlockId>, ghost start: State) returns (outcome: Outcome)
    requires session.s == Uploaded(start, entries) && start.actor.Maintenance? && HasState(start.packs, source, Ready)
    requires Selected(start, LiveBlocks(start, source), entries, ids) && |ids| == |LiveBlocks(start, source)|
    requires id == Sha256(PackBytes(entries)) && IsPackOf(PackBytes(entries), entries)
    requires PayloadOffsets(entries, offsets) && (AllInPlay(entries) ==> Evolves(start, session.s))
    modifies session
    ensures AllInPlay(entries) ==> Evolves(start, session.s)
    ensures outcome == Refused ==> session.s == old(session.s)
    ensures outcome != Refused ==> Compacted(start, source, entries, ids, outcome, session.s)
    ensures outcome != Refused ==> LiveMoved(start, source, session.s)
    ensures outcome == Done ==> HasState(session.s.packs, source, Deleted)
  {
    ghost var stored := session.s;
    var ok, p := SwitchTo(session, source, id, entries, offsets, ids, start);
    if !ok {
      return Refused;
    }
    ghost var switched := session.s;
    outcome := DropOld(session, source, entries, start, stored);
    EndsThere(start, source, entries, ids, p, switched, outcome, session.s);
  }

  lemma EndsThere(start: State, source: PackId, entries: seq<Entry>, ids: seq<BlockId>, p: PackId, switched: State,
                  outcome: Outcome, t: State)
    requires start.actor.Maintenance? && source in start.packs && source in switched.packs
    requires var stored := Uploaded(start, entries);
             && NewPackRow(stored, p, Sha256(PackBytes(entries))) && LocatorsMatch(stored, source, entries, ids)
             && switched == Switched(stored, source, p, entries, ids)
    requires DropsTo(switched, source, outcome, t)
    ensures Compacted(start, source, entries, ids, outcome, t)
  {
    assert EndsAt(start, source, entries, ids, p, outcome, t);
  }

  /** Drops the old pack; the store and the mark may each fail. */
  method DropOld(session: Session, source: PackId, ghost entries: seq<Entry>, ghost start: State, ghost stored: State)
    returns (outcome: Outcome)
    requires session.s.actor.Maintenance? && source in session.s.actor.condemned && source in session.s.packs
    requires LiveMoved(stored, source, session.s) && (AllInPlay(entries) ==> Evolves(start, session.s))
    modifies session
    ensures AllInPlay(entries) ==> Evolves(start, session.s)
    ensures LiveMoved(stored, source, session.s) && DropsTo(old(session.s), source, outcome, session.s)
    ensures outcome == Done ==> HasState(session.s.packs, source, Deleted)
  {
    ghost var switched := session.s;
    var removed, marked := session.DropPack(source);
    DropKeepsMoved(stored, source, switched, session.s);
    if AllInPlay(entries) {
      DropPath(start, switched, source, removed, marked, session.s);
    }
    outcome := if marked then Done else Interrupted;
  }

  method SwitchTo(session: Session, source: PackId, id: Digest, entries: seq<Entry>, offsets: seq<nat>,
                  ids: seq<BlockId>, ghost start: State) returns (ok: bool, p: PackId)
    requires session.s.actor.Maintenance? && HasState(session.s.packs, source, Ready)
    requires Selected(session.s, LiveBlocks(session.s, source), entries, ids)
    requires |ids| == |LiveBlocks(session.s, source)|
    requires id in session.s.objects && session.s.objects[id] == PackBytes(entries) && id == Sha256(PackBytes(entries))
    requires IsPackOf(PackBytes(entries), entries) && PayloadOffsets(entries, offsets)
    requires AllInPlay(entries) ==> Evolves(start, session.s)
    modifies session
    ensures !ok ==> session.s == old(session.s)
    ensures ok ==> session.s.actor.Maintenance? && source in session.s.actor.condemned && source in session.s.packs
    ensures ok ==> LiveMoved(old(session.s), source, session.s)
    ensures ok ==> NewPackRow(old(session.s), p, id) && LocatorsMatch(old(session.s), source, entries, ids)
                   && session.s == Switched(old(session.s), source, p, entries, ids)
    ensures AllInPlay(entries) ==> Evolves(start, session.s)
  {
    ghost var before := session.s;
    var none;
    p, none := session.GenerateIds(0);
    ok := session.SwitchRows(source, p, id, entries, offsets, ids);
    if ok {
      session.s := session.s.(actor := Maintenance(session.s.actor.condemned + {source}));
      AllLiveMoved(before, source, entries, ids);
      SwitchMoves(before, source, p, id, entries, ids);
      if AllInPlay(entries) {
        SwitchPath(start, before, source, p, id, entries, ids, session.s);
      }
    }
  }

  lemma DropPath(start: State, s: State, p: PackId, removed: bool, marked: bool, t: State)
    requires Evolves(start, s) && s.actor.Maintenance? && p in s.actor.condemned && p in s.packs && (marked ==> removed)
    requires t == (if marked then MarkPackDeleted(s.(objects := s.objects - {s.packs[p].sha}), p)
                   else if removed then s.(objects := s.objects - {s.packs[p].sha})
                   else s)
    ensures Evolves(start, t)
  {
    if removed {
      var m := s.(objects := s.objects - {s.packs[p].sha});
      DeletePath(start, s, p, m);
      if marked {
        MarkPath(start, m, p, t);
      }
    }
  }
}
