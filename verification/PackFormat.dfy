/** The v1 pack wire format: the writer, the streaming validator, and the proof that they undo each other. */
module PackFormat {
  import opened Bytes

  const BLOCK_SIZE: nat := 4 * 1024 * 1024
  const MAX_PACK_SIZE: nat := 64 * 1024 * 1024
  const PREFIX_SIZE: nat := 16
  const FOOTER_SIZE: nat := 20
  const MAX_UINT32: nat := 0xFFFF_FFFF

  const PACK_MAGIC: Bytes := [67, 76, 77, 80, 65, 67, 75, 49]
  const FOOTER_MAGIC: Bytes := [67, 76, 77, 69, 78, 68, 48, 49]

  /** Version 1, two reserved bytes and a zero header length. */
  const PREFIX: Bytes := [0, 1, 0, 0, 0, 0, 0, 0]

  datatype Entry = Entry(hash: Digest, data: Bytes)

  datatype Pack = Pack(id: Digest, size: nat, entryCount: nat)

  datatype PackError =
    | TooManyEntries | InvalidBlockLength | HashMismatch | PackTooLarge
    | InvalidMagic | UnsupportedVersion | Truncated | FooterMismatch | TrailingData | WrongPackId

  datatype EncodeResult = Encoded(pack: Pack, bytes: Bytes) | EncodeFailed(error: PackError)

  /** `offsets[i]` is the payload offset handed to the callback together with `entries[i]`. */
  datatype ValidateResult =
    | Validated(pack: Pack, entries: seq<Entry>, offsets: seq<nat>)
    | Rejected(error: PackError)

  // ---- The format as a function of the entries -------------------------------------------------

  function Frame(e: Entry): (r: Bytes)
    ensures |r| == 36 + |e.data|
  {
    e.hash + BigEndian(|e.data|, 4) + e.data
  }

  function Frames(entries: seq<Entry>): Bytes {
    if entries == [] then [] else Frames(entries[..|entries| - 1]) + Frame(entries[|entries| - 1])
  }

  function Footer(count: nat, dataEnd: nat): (r: Bytes)
    ensures |r| == FOOTER_SIZE && r[..8] == FOOTER_MAGIC
  {
    FOOTER_MAGIC + BigEndian(count, 4) + BigEndian(dataEnd, 8)
  }

  function PackBytes(entries: seq<Entry>): Bytes {
    PACK_MAGIC + PREFIX + Frames(entries) + Footer(|entries|, PREFIX_SIZE + |Frames(entries)|)
  }

  predicate WellFormed(e: Entry) {
    0 < |e.data| <= BLOCK_SIZE && Sha256(e.data) == e.hash
  }

  /** Exactly the inputs EncodePack accepts. */
  predicate Encodable(entries: seq<Entry>) {
    && |entries| <= MAX_UINT32
    && (forall e :: e in entries ==> WellFormed(e))
    && PREFIX_SIZE + |Frames(entries)| + FOOTER_SIZE <= MAX_PACK_SIZE
  }

  predicate LooksLikeFooter(e: Entry) {
    e.hash[..8] == FOOTER_MAGIC
  }

  /** No entry's hash starts with the footer magic, so framing is unambiguous. */
  predicate Unambiguous(entries: seq<Entry>) {
    forall e :: e in entries ==> !LooksLikeFooter(e)
  }

  /** The reference definition of a valid pack: the image of the writer on unambiguous entries. */
  predicate IsPackOf(source: Bytes, entries: seq<Entry>) {
    Encodable(entries) && Unambiguous(entries) && source == PackBytes(entries)
  }

  ghost predicate IsPack(source: Bytes) {
    exists entries: seq<Entry> :: IsPackOf(source, entries)
  }

  /** Where the payload of `entries[i]` starts in `PackBytes(entries)`. */
  function PayloadOffset(entries: seq<Entry>, i: nat): nat
    requires i < |entries|
  {
    PREFIX_SIZE + |Frames(entries[..i])| + 36
  }

  predicate PayloadOffsets(entries: seq<Entry>, offsets: seq<nat>) {
    && |offsets| == |entries|
    && forall i :: 0 <= i < |entries| ==> offsets[i] == PayloadOffset(entries, i)
  }

  // ---- Facts about frames ----------------------------------------------------------------------

  lemma FramesSnoc(entries: seq<Entry>, e: Entry)
    ensures Frames(entries + [e]) == Frames(entries) + Frame(e)
  {
    assert (entries + [e])[..|entries|] == entries;
  }

  lemma {:induction false} FramesAppend(left: seq<Entry>, right: seq<Entry>)
    ensures Frames(left + right) == Frames(left) + Frames(right)
  {
    if right == [] {
      assert left + right == left;
    } else {
      var init, last := right[..|right| - 1], right[|right| - 1];
      FramesAppend(left, init);
      assert left + right == (left + init) + [last];
      FramesSnoc(left + init, last);
      ConcatAssociative(Frames(left), Frames(init), Frame(last));
    }
  }

  lemma FramesAround(left: seq<Entry>, e: Entry, right: seq<Entry>)
    ensures Frames(left + [e] + right) == Frames(left) + Frame(e) + Frames(right)
  {
    FramesAppend(left + [e], right);
    FramesSnoc(left, e);
  }

  /** Frames(entries), split around entry i. */
  lemma FramesSplit(entries: seq<Entry>, i: nat)
    requires i < |entries|
    ensures Frames(entries) == Frames(entries[..i]) + Frame(entries[i]) + Frames(entries[i + 1..])
  {
    SplitAt(entries, i);
    FramesAround(entries[..i], entries[i], entries[i + 1..]);
  }

  /** Every payload offset of an encoded pack slices out exactly that entry's payload. */
  lemma PayloadSlice(entries: seq<Entry>, i: nat)
    requires i < |entries|
    ensures var at := PayloadOffset(entries, i);
            && at + |entries[i].data| + FOOTER_SIZE <= |PackBytes(entries)|
            && PackBytes(entries)[at..at + |entries[i].data|] == entries[i].data
  {
    var at := PREFIX_SIZE + |Frames(entries[..i])|;
    FrameIn(entries, i);
    var e := entries[i];
    SuffixOf(e.hash + BigEndian(|e.data|, 4), e.data);
    SubSlice(PackBytes(entries), at, at + |Frame(e)|, 36, |Frame(e)|);
  }

  /** The frame of entry i sits right after the frames of its predecessors. */
  lemma FrameIn(entries: seq<Entry>, i: nat)
    requires i < |entries|
    ensures var at := PREFIX_SIZE + |Frames(entries[..i])|;
            && at + |Frame(entries[i])| + FOOTER_SIZE <= |PackBytes(entries)|
            && PackBytes(entries)[at..at + |Frame(entries[i])|] == Frame(entries[i])
  {
    FramesSplit(entries, i);
    var head, before, frame := PACK_MAGIC + PREFIX, Frames(entries[..i]), Frame(entries[i]);
    var rest, footer := Frames(entries[i + 1..]), Footer(|entries|, PREFIX_SIZE + |Frames(entries)|);
    Regroup(head, before, frame, rest, footer);
    MiddleOf(head + before, frame, rest + footer);
  }

  // ---- The writer ------------------------------------------------------------------------------

  datatype Failure = None | Some(error: PackError)

  /** EncodePack's first pass: checks every entry and sums the encoded sizes. */
  method MeasureEntries(entries: seq<Entry>) returns (payloadSize: nat, failure: Failure)
    ensures failure.None? <==> forall e :: e in entries ==> WellFormed(e)
    ensures failure.None? ==> payloadSize == |Frames(entries)|
  {
    payloadSize := 0;
    for i := 0 to |entries|
      invariant forall j :: 0 <= j < i ==> WellFormed(entries[j])
      invariant payloadSize == |Frames(entries[..i])|
    {
      if |entries[i].data| == 0 || |entries[i].data| > BLOCK_SIZE {
        assert entries[i] in entries;
        return payloadSize, Some(InvalidBlockLength);
      }
      if Sha256(entries[i].data) != entries[i].hash {
        assert entries[i] in entries;
        return payloadSize, Some(HashMismatch);
      }
      payloadSize := payloadSize + 32 + 4 + |entries[i].data|;
      FramesSnoc(entries[..i], entries[i]);
      assert entries[..i] + [entries[i]] == entries[..i + 1];
    }
    assert entries[..|entries|] == entries;
    failure := None;
  }

  /** EncodePack succeeds on exactly the encodable inputs and emits exactly PackBytes. */
  method EncodePack(entries: seq<Entry>) returns (r: EncodeResult)
    ensures r.Encoded? <==> Encodable(entries)
    ensures r.Encoded? ==> r.bytes == PackBytes(entries)
                           && r.pack == Pack(Sha256(r.bytes), |r.bytes|, |entries|)
  {
    if |entries| > MAX_UINT32 {
      return EncodeFailed(TooManyEntries);
    }
    var payloadSize, failure := MeasureEntries(entries);
    if failure.Some? {
      return EncodeFailed(failure.error);
    }
    if PREFIX_SIZE + FOOTER_SIZE + payloadSize > MAX_PACK_SIZE {
      return EncodeFailed(PackTooLarge);
    }
    var out := PACK_MAGIC + PREFIX;
    var dataEnd := PREFIX_SIZE;
    for i := 0 to |entries|
      invariant out == PACK_MAGIC + PREFIX + Frames(entries[..i])
      invariant dataEnd == |out|
    {
      var e := entries[i];
      ConcatAssociative(PACK_MAGIC + PREFIX, Frames(entries[..i]), Frame(e));
      FramesSnoc(entries[..i], e);
      assert entries[..i] + [e] == entries[..i + 1];
      out := out + (e.hash + BigEndian(|e.data|, 4) + e.data);
      dataEnd := dataEnd + 32 + 4 + |e.data|;
    }
    assert entries[..|entries|] == entries;
    out := out + (FOOTER_MAGIC + BigEndian(|entries|, 4) + BigEndian(dataEnd, 8));
    r := Encoded(Pack(Sha256(out), dataEnd + FOOTER_SIZE, |entries|), out);
  }

  // ---- The validator ---------------------------------------------------------------------------

  /** What must follow the frames of `done` when `source` is a pack of `all` and `done` is a prefix of `all`. */
  lemma NextFrame(source: Bytes, done: seq<Entry>, all: seq<Entry>)
    requires Encodable(all) && source == PackBytes(all) && done <= all
    ensures var at := PREFIX_SIZE + |Frames(done)|;
            && at + FOOTER_SIZE <= |source| <= MAX_PACK_SIZE
            && (|done| == |all| ==> source[at..] == Footer(|all|, at))
            && (|done| < |all| ==>
                  var e := all[|done|];
                  && at + 36 + |e.data| + FOOTER_SIZE <= |source|
                  && source[at..at + 36 + |e.data|] == Frame(e))
  {
    if |done| == |all| {
      assert done == all;
      SuffixOf(PACK_MAGIC + PREFIX + Frames(all), Footer(|all|, PREFIX_SIZE + |Frames(all)|));
    } else {
      assert all[..|done|] == done;
      FrameIn(all, |done|);
    }
  }

  /** The fields of a frame read back from the stream. */
  lemma FrameFields(e: Entry)
    requires |e.data| <= BLOCK_SIZE
    ensures Frame(e)[..32] == e.hash
    ensures Frame(e)[32..36] == BigEndian(|e.data|, 4)
    ensures FromBigEndian(Frame(e)[32..36]) == |e.data|
    ensures Frame(e)[36..] == e.data
  {
    assert Pow256(4) == 0x1_0000_0000;
    BigEndianRoundTrip(|e.data|, 4);
  }

  /** A frame of `e` occupies `source` at `at`. */
  predicate FrameAt(source: Bytes, at: nat, e: Entry) {
    at + |Frame(e)| <= |source| && source[at..at + |Frame(e)|] == Frame(e)
  }

  /** A frame of e occupies the hash, length and payload fields at `at`, and nothing else does. */
  lemma FrameAtFields(source: Bytes, at: nat, e: Entry)
    requires FrameAt(source, at, e) && |e.data| <= BLOCK_SIZE
    ensures source[at..at + 32] == e.hash
    ensures FromBigEndian(source[at + 32..at + 36]) == |e.data|
    ensures source[at + 36..at + 36 + |e.data|] == e.data
  {
    FrameFields(e);
    var window := source[at..at + 36 + |e.data|];
    assert window[..32] == source[at..at + 32];
    assert window[32..36] == source[at + 32..at + 36];
    assert window[36..] == source[at + 36..at + 36 + |e.data|];
  }

  /** Reading hash, length and payload at `at` amounts to reading a frame. */
  lemma ReadFrame(source: Bytes, at: nat, length: nat)
    requires at + 36 + length <= |source|
    requires FromBigEndian(source[at + 32..at + 36]) == length
    ensures |source[at..at + 32]| == 32
    ensures FrameAt(source, at, Entry(source[at..at + 32], source[at + 36..at + 36 + length]))
  {
    var window := source[at..at + 36 + length];
    FromBigEndianInverse(source[at + 32..at + 36]);
    assert window == source[at..at + 32] + source[at + 32..at + 36] + source[at + 36..at + 36 + length];
  }

  /** A pack starts with the magic and the v1 prefix; the guards of ValidatePack test exactly that. */
  lemma HeaderFields(source: Bytes)
    requires |source| >= 16
    ensures source[..16] == PACK_MAGIC + PREFIX <==>
            && source[..8] == PACK_MAGIC
            && FromBigEndian(source[8..10]) == 1 && source[10] == 0 && source[11] == 0
            && FromBigEndian(source[12..16]) == 0
  {
    Value2(source[8..10]);
    Value4(source[12..16]);
    var head := source[..16];
    if head == PACK_MAGIC + PREFIX {
      assert head[8..10] == PREFIX[0..2] && head[12..16] == PREFIX[4..8];
      assert source[..8] == head[..8];
    }
  }

  lemma Value2(b: Bytes)
    requires |b| == 2
    ensures FromBigEndian(b) == 256 * (b[0] as int) + b[1]
  {
    assert b[..1] == [b[0]];
    assert FromBigEndian(b[..1]) == 256 * FromBigEndian([]) + b[0];
  }

  lemma Value4(b: Bytes)
    requires |b| == 4
    ensures FromBigEndian(b) == 256 * (256 * (256 * (b[0] as int) + b[1]) + b[2]) + b[3]
  {
    assert b[..3][..2] == b[..2];
    Value2(b[..2]);
  }

  lemma PackHeader(source: Bytes)
    ensures IsPack(source) ==> |source| >= 16 && source[..16] == PACK_MAGIC + PREFIX && source[..8] == PACK_MAGIC
  {
    if IsPack(source) {
      var entries :| IsPackOf(source, entries);
      var footer := Footer(|entries|, PREFIX_SIZE + |Frames(entries)|);
      ConcatAssociative(PACK_MAGIC + PREFIX, Frames(entries), footer);
      SuffixOf(PACK_MAGIC + PREFIX, Frames(entries) + footer);
      assert source[..8] == source[..16][..8];
    }
  }

  lemma FooterFields(count: nat, dataEnd: nat)
    requires count <= MAX_UINT32 && dataEnd <= MAX_PACK_SIZE
    ensures FromBigEndian(Footer(count, dataEnd)[8..12]) == count
    ensures FromBigEndian(Footer(count, dataEnd)[12..20]) == dataEnd
  {
    assert Pow256(4) == 0x1_0000_0000;
    assert Pow256(8) == 256 * 256 * 256 * 256 * Pow256(4);
    BigEndianRoundTrip(count, 4);
    BigEndianRoundTrip(dataEnd, 8);
    assert Footer(count, dataEnd)[8..12] == BigEndian(count, 4);
    assert Footer(count, dataEnd)[12..20] == BigEndian(dataEnd, 8);
  }

  /** A tail with the magic and matching fields is the footer. */
  lemma ReadFooter(tail: Bytes, count: nat, dataEnd: nat)
    requires |tail| == FOOTER_SIZE && tail[..8] == FOOTER_MAGIC
    requires FromBigEndian(tail[8..12]) == count && FromBigEndian(tail[12..20]) == dataEnd
    ensures tail == Footer(count, dataEnd)
  {
    FromBigEndianInverse(tail[8..12]);
    FromBigEndianInverse(tail[12..20]);
    assert tail == tail[..8] + tail[8..12] + tail[12..20];
  }

  /** Frames followed by their footer, and nothing else, make a pack. */
  lemma CompletePack(source: Bytes, entries: seq<Entry>, dataEnd: nat)
    requires Consumed(source, entries, dataEnd) && |entries| <= MAX_UINT32
    requires dataEnd + FOOTER_SIZE == |source| <= MAX_PACK_SIZE
    requires source[dataEnd..dataEnd + 8] == FOOTER_MAGIC
    requires FromBigEndian(source[dataEnd + 8..dataEnd + 12]) == |entries|
    requires FromBigEndian(source[dataEnd + 12..dataEnd + 20]) == dataEnd
    ensures IsPackOf(source, entries)
  {
    TailSlice(source, dataEnd, 0, 8);
    TailSlice(source, dataEnd, 8, 12);
    TailSlice(source, dataEnd, 12, 20);
    ReadFooter(source[dataEnd..], |entries|, dataEnd);
    assert source == source[..dataEnd] + source[dataEnd..];
  }

  /** Appending one entry extends the frames and keeps every earlier offset. */
  lemma ExtendOffsets(entries: seq<Entry>, offsets: seq<nat>, e: Entry)
    requires PayloadOffsets(entries, offsets)
    ensures PayloadOffsets(entries + [e], offsets + [PREFIX_SIZE + |Frames(entries)| + 36])
  {
    var longer := entries + [e];
    assert longer[..|entries|] == entries;
    forall i | 0 <= i < |entries|
      ensures longer[..i] == entries[..i]
    {
    }
  }

  // The validator's position: it has consumed the header and the frames of `entries`.
  predicate Consumed(source: Bytes, entries: seq<Entry>, offset: nat) {
    && offset == PREFIX_SIZE + |Frames(entries)| <= |source|
    && source[..offset] == PACK_MAGIC + PREFIX + Frames(entries)
    && Unambiguous(entries)
    && forall e :: e in entries ==> WellFormed(e)
  }

  // Whatever the source encodes starts with `entries`.
  ghost predicate Forced(source: Bytes, entries: seq<Entry>) {
    forall es: seq<Entry> :: IsPackOf(source, es) ==> entries <= es
  }

  /** How the frames of `all` continue after those of its prefix `done`: with the footer, or with a longer frame. */
  lemma Following(source: Bytes, done: seq<Entry>, all: seq<Entry>)
    requires Encodable(all) && source == PackBytes(all) && done <= all
    ensures var at := PREFIX_SIZE + |Frames(done)|;
            && at + 8 <= |source|
            && (|done| == |all| ==> source[at..at + 8] == FOOTER_MAGIC && |source| == at + FOOTER_SIZE)
            && (|done| < |all| ==>
                  && FrameAt(source, at, all[|done|]) && WellFormed(all[|done|])
                  && source[at..at + 8] == all[|done|].hash[..8]
                  && |source| > at + FOOTER_SIZE)
  {
    NextFrame(source, done, all);
    var at := PREFIX_SIZE + |Frames(done)|;
    if |done| == |all| {
      TailSlice(source, at, 0, 8);
    } else {
      assert all[|done|] in all;
      FramePeek(source, at, all[|done|]);
    }
  }

  /** The eight bytes peeked at a frame begin its hash. */
  lemma FramePeek(source: Bytes, at: nat, e: Entry)
    requires FrameAt(source, at, e) && WellFormed(e)
    ensures at + 8 <= |source| && source[at..at + 8] == e.hash[..8]
  {
    FrameAtFields(source, at, e);
    SubSlice(source, at, at + 32, 0, 8);
  }

  lemma UniqueFrame(source: Bytes, at: nat, e: Entry, f: Entry)
    requires FrameAt(source, at, e) && FrameAt(source, at, f)
    requires |e.data| <= BLOCK_SIZE && |f.data| <= BLOCK_SIZE
    ensures e == f
  {
    FrameAtFields(source, at, e);
    FrameAtFields(source, at, f);
  }

  /** If the footer does not follow, every pack reading of the source continues with a frame right here. */
  lemma MustContinue(source: Bytes, entries: seq<Entry>, offset: nat, es: seq<Entry>)
    requires Forced(source, entries) && offset == PREFIX_SIZE + |Frames(entries)| && IsPackOf(source, es)
    ensures offset + FOOTER_SIZE <= |source| <= MAX_PACK_SIZE
    ensures source[offset..offset + 8] == FOOTER_MAGIC ==> es == entries && source[offset..] == Footer(|es|, offset)
    ensures source[offset..offset + 8] != FOOTER_MAGIC ==>
              && |entries| < |es|
              && FrameAt(source, offset, es[|entries|])
              && WellFormed(es[|entries|])
              && offset + 36 + |es[|entries|].data| + FOOTER_SIZE <= MAX_PACK_SIZE
  {
    assert |entries| < |es| ==> es[|entries|] in es;
    NextFrame(source, entries, es);
    Following(source, entries, es);
  }

  /** Once the footer magic follows, a pack holds exactly the entries read so far and ends in their footer. */
  lemma FooterAgrees(source: Bytes, entries: seq<Entry>, dataEnd: nat)
    requires Forced(source, entries) && dataEnd == PREFIX_SIZE + |Frames(entries)| && IsPack(source)
    requires |source| >= dataEnd + 8 && source[dataEnd..dataEnd + 8] == FOOTER_MAGIC
    ensures dataEnd + FOOTER_SIZE == |source| <= MAX_PACK_SIZE
    ensures FromBigEndian(source[dataEnd + 8..dataEnd + 12]) == |entries|
    ensures FromBigEndian(source[dataEnd + 12..dataEnd + 20]) == dataEnd
  {
    var es: seq<Entry> :| IsPackOf(source, es);
    MustContinue(source, entries, dataEnd, es);
    FooterFields(|entries|, dataEnd);
    TailSlice(source, dataEnd, 8, 12);
    TailSlice(source, dataEnd, 12, 20);
  }

  lemma FooterOrFrame(source: Bytes, entries: seq<Entry>, offset: nat)
    requires Forced(source, entries) && offset == PREFIX_SIZE + |Frames(entries)| && IsPack(source)
    ensures offset + 8 <= |source|
    ensures source[offset..offset + 8] != FOOTER_MAGIC ==>
              |entries| < MAX_UINT32 && exists e :: FrameAt(source, offset, e) && WellFormed(e)
                                                    && offset + 36 + |e.data| + FOOTER_SIZE <= MAX_PACK_SIZE
  {
    var es: seq<Entry> :| IsPackOf(source, es);
    MustContinue(source, entries, offset, es);
  }

  lemma Advance(source: Bytes, entries: seq<Entry>, offset: nat, e: Entry)
    requires Consumed(source, entries, offset) && Forced(source, entries)
    requires FrameAt(source, offset, e) && WellFormed(e) && source[offset..offset + 8] != FOOTER_MAGIC
    ensures Consumed(source, entries + [e], offset + 36 + |e.data|)
    ensures Forced(source, entries + [e])
  {
    ConsumeFrame(source, entries, offset, e);
    forall es: seq<Entry> | IsPackOf(source, es)
      ensures entries + [e] <= es
    {
      MustContinue(source, entries, offset, es);
      UniqueFrame(source, offset, e, es[|entries|]);
    }
  }

  lemma ConsumeFrame(source: Bytes, entries: seq<Entry>, offset: nat, e: Entry)
    requires Consumed(source, entries, offset)
    requires FrameAt(source, offset, e) && WellFormed(e) && source[offset..offset + 8] != FOOTER_MAGIC
    ensures Consumed(source, entries + [e], offset + 36 + |e.data|)
  {
    var next := offset + 36 + |e.data|;
    FramesSnoc(entries, e);
    SplitSlice(source, offset, next);
    ConcatAssociative(PACK_MAGIC + PREFIX, Frames(entries), Frame(e));
    FrameAtFields(source, offset, e);
    SubSlice(source, offset, offset + 32, 0, 8);
  }

  datatype ReadResult = Read(entry: Entry) | NoEntry(error: PackError)

  /** One turn of the validator's loop: reads the frame at `offset`, or there is no acceptable one. */
  method ReadEntry(source: Bytes, offset: nat) returns (r: ReadResult)
    ensures r.Read? ==> FrameAt(source, offset, r.entry) && WellFormed(r.entry)
                        && offset + 36 + |r.entry.data| + FOOTER_SIZE <= MAX_PACK_SIZE
    ensures r.NoEntry? ==> forall e :: FrameAt(source, offset, e) && WellFormed(e) ==>
                                         offset + 36 + |e.data| + FOOTER_SIZE > MAX_PACK_SIZE
  {
    if offset + 32 + 4 + FOOTER_SIZE > MAX_PACK_SIZE {
      return NoEntry(PackTooLarge);
    }
    if offset + 36 > |source| {
      return NoEntry(Truncated);
    }
    var hash: Digest := source[offset..offset + 32];
    var length := FromBigEndian(source[offset + 32..offset + 36]);
    forall e | FrameAt(source, offset, e) && WellFormed(e)
      ensures e.hash == hash && |e.data| == length && source[offset + 36..offset + 36 + length] == e.data
    {
      FrameAtFields(source, offset, e);
    }
    if length == 0 || length > BLOCK_SIZE || offset + 36 + length + FOOTER_SIZE > MAX_PACK_SIZE {
      return NoEntry(InvalidBlockLength);
    }
    if offset + 36 + length > |source| {
      return NoEntry(Truncated);
    }
    var payload := source[offset + 36..offset + 36 + length];
    ReadFrame(source, offset, length);
    if Sha256(payload) != hash {
      return NoEntry(HashMismatch);
    }
    r := Read(Entry(hash, payload));
  }

  /**
    ValidatePack accepts a byte string if and only if it is the encoding of some unambiguous entries and
    hashes to the expected ID; then it delivers exactly those entries, each with an offset that slices its
    payload out of the source.
   */
  method ValidatePack(source: Bytes, expectedId: Digest) returns (r: ValidateResult)
    ensures r.Validated? <==> Sha256(source) == expectedId && IsPack(source)
    ensures r.Validated? ==>
              && IsPackOf(source, r.entries)
              && PayloadOffsets(r.entries, r.offsets)
              && r.pack == Pack(expectedId, |source|, |r.entries|)
  {
    PackHeader(source);
    if |source| < 8 || source[..8] != PACK_MAGIC {
      return Rejected(InvalidMagic);
    }
    if |source| < 16 {
      return Rejected(Truncated);
    }
    HeaderFields(source);
    if FromBigEndian(source[8..10]) != 1 || source[10] != 0 || source[11] != 0 || FromBigEndian(source[12..16]) != 0 {
      return Rejected(UnsupportedVersion);
    }
    var offset: nat := 16;
    var entries: seq<Entry> := [];
    var offsets: seq<nat> := [];
    while true
      invariant Consumed(source, entries, offset) && Forced(source, entries)
      invariant |entries| <= MAX_UINT32
      invariant PayloadOffsets(entries, offsets)
      decreases |source| - offset
    {
      if IsPack(source) {
        FooterOrFrame(source, entries, offset);
      }
      if offset + 8 > |source| {
        return Rejected(Truncated);
      }
      if source[offset..offset + 8] == FOOTER_MAGIC {
        break;
      }
      var read := ReadEntry(source, offset);
      if read.NoEntry? {
        return Rejected(read.error);
      }
      if |entries| == MAX_UINT32 {
        return Rejected(TooManyEntries);
      }
      Advance(source, entries, offset, read.entry);
      ExtendOffsets(entries, offsets, read.entry);
      offsets := offsets + [offset + 36];
      entries := entries + [read.entry];
      offset := offset + 36 + |read.entry.data|;
    }
    r := CheckFooter(source, expectedId, entries, offsets, offset);
  }

  /** The end of ValidatePack, once the footer magic has been seen at `dataEnd`. */
  method CheckFooter(source: Bytes, expectedId: Digest, entries: seq<Entry>, offsets: seq<nat>, dataEnd: nat)
    returns (r: ValidateResult)
    requires Consumed(source, entries, dataEnd) && Forced(source, entries) && |entries| <= MAX_UINT32
    requires dataEnd + 8 <= |source| && source[dataEnd..dataEnd + 8] == FOOTER_MAGIC
    ensures r.Validated? <==> Sha256(source) == expectedId && IsPack(source)
    ensures r.Validated? ==> IsPackOf(source, entries)
                             && r == Validated(Pack(expectedId, |source|, |entries|), entries, offsets)
  {
    if IsPack(source) {
      FooterAgrees(source, entries, dataEnd);
    }
    if dataEnd + FOOTER_SIZE > |source| {
      return Rejected(Truncated);
    }
    if FromBigEndian(source[dataEnd + 8..dataEnd + 12]) != |entries|
       || FromBigEndian(source[dataEnd + 12..dataEnd + 20]) != dataEnd {
      return Rejected(FooterMismatch);
    }
    var offset := dataEnd + FOOTER_SIZE;
    if offset > MAX_PACK_SIZE {
      return Rejected(PackTooLarge);
    }
    if offset < |source| {
      return Rejected(TrailingData);
    }
    CompletePack(source, entries, dataEnd);
    if Sha256(source) != expectedId {
      return Rejected(WrongPackId);
    }
    r := Validated(Pack(expectedId, offset, |entries|), entries, offsets);
  }

  // ---- Printer and parser undo each other ------------------------------------------------------

  /** One step of the comparison: both lists go on with the same entry. */
  lemma SameNext(source: Bytes, done: seq<Entry>, es: seq<Entry>, fs: seq<Entry>)
    requires Encodable(es) && source == PackBytes(es) && IsPackOf(source, fs)
    requires done <= es && done <= fs && |done| < |es| && !LooksLikeFooter(es[|done|])
    ensures |done| < |fs| && es[|done|] == fs[|done|]
  {
    Following(source, done, es);
    Following(source, done, fs);
    if |done| < |fs| {
      UniqueFrame(source, PREFIX_SIZE + |Frames(done)|, es[|done|], fs[|done|]);
    }
  }

  /**
    Two entry lists with the same encoding agree up to the first entry of `es` whose hash reads as a footer.
   */
  lemma {:induction false} SharedPrefix(source: Bytes, es: seq<Entry>, fs: seq<Entry>, k: nat)
    requires Encodable(es) && source == PackBytes(es) && IsPackOf(source, fs)
    requires k <= |es| && forall i :: 0 <= i < k ==> !LooksLikeFooter(es[i])
    ensures k <= |fs| && es[..k] == fs[..k]
  {
    if k > 0 {
      SharedPrefix(source, es, fs, k - 1);
      SameNext(source, es[..k - 1], es, fs);
      assert es[..k] == es[..k - 1] + [es[k - 1]];
      assert fs[..k] == fs[..k - 1] + [fs[k - 1]];
    }
  }

  /** A byte string encodes at most one unambiguous list of entries. */
  lemma UniqueEntries(source: Bytes, es: seq<Entry>, fs: seq<Entry>)
    requires IsPackOf(source, es) && IsPackOf(source, fs)
    ensures es == fs
  {
    SharedPrefix(source, es, fs, |es|);
    SharedPrefix(source, fs, es, |fs|);
  }

  /**
    The round trip of writer and validator, with its exact condition: the encoding of a list of entries is
    accepted if and only if no entry's hash begins with the footer magic.
   */
  lemma EncodingAcceptedIff(es: seq<Entry>)
    requires Encodable(es)
    ensures IsPack(PackBytes(es)) <==> Unambiguous(es)
  {
    if Unambiguous(es) {
      assert IsPackOf(PackBytes(es), es);
    } else if IsPack(PackBytes(es)) {
      var fs: seq<Entry> :| IsPackOf(PackBytes(es), fs);
      var k := FirstFooterLookalike(es);
      SharedPrefix(PackBytes(es), es, fs, k);
      Following(PackBytes(es), es[..k], es);
      MagicEnds(PackBytes(es), es[..k], fs);
    }
  }

  /** In an unambiguous pack the footer magic only occurs, between frames, at the very end. */
  lemma MagicEnds(source: Bytes, done: seq<Entry>, fs: seq<Entry>)
    requires IsPackOf(source, fs) && done <= fs
    requires var at := PREFIX_SIZE + |Frames(done)|; at + 8 <= |source| && source[at..at + 8] == FOOTER_MAGIC
    ensures |source| == PREFIX_SIZE + |Frames(done)| + FOOTER_SIZE
  {
    assert |done| < |fs| ==> fs[|done|] in fs;
    Following(source, done, fs);
  }

  lemma FirstFooterLookalike(es: seq<Entry>) returns (k: nat)
    requires !Unambiguous(es)
    ensures k < |es| && LooksLikeFooter(es[k]) && forall i :: 0 <= i < k ==> !LooksLikeFooter(es[i])
  {
    k := 0;
    while k < |es| && !LooksLikeFooter(es[k])
      invariant k <= |es| && forall i :: 0 <= i < k ==> !LooksLikeFooter(es[i])
    {
      k := k + 1;
    }
  }

  /** A concrete failing family: any block whose digest starts with CLMEND01 encodes but never validates. */
  lemma FooterLookalikeRejected(data: Bytes)
    requires 0 < |data| <= BLOCK_SIZE && Sha256(data)[..8] == FOOTER_MAGIC
    ensures Encodable([Entry(Sha256(data), data)])
    ensures !IsPack(PackBytes([Entry(Sha256(data), data)]))
  {
    var e := Entry(Sha256(data), data);
    FramesSnoc([], e);
    assert [] + [e] == [e];
    assert e in [e] && LooksLikeFooter(e);
    EncodingAcceptedIff([e]);
  }
}
