/** Stateless pagination over providers that can only list a whole directory. */
module Pagination {
  import opened Listing

  const MAX_DIRECTORY_ITEMS := 10000

  type Hex = s: string | s != "" witness "0"

  /** SHA-256, in hexadecimal, over the JSON form of the sorted listing; left uninterpreted. */
  const Fingerprint: seq<Item> -> Hex

  ghost const ListingsInPlay: iset<seq<Item>>

  /** No two listings in play share a fingerprint. */
  ghost predicate FingerprintsDistinct() {
    forall s, t :: s in ListingsInPlay && t in ListingsInPlay && Fingerprint(s) == Fingerprint(t) ==> s == t
  }

  /** No cursor, a string that does not decode, or a decoded one. */
  datatype Cursor = NoCursor | Malformed | At(offset: int, fingerprint: string)

  datatype Reply = Page(items: seq<Item>, next: Cursor) | ListingFailed | TooLarge | Changed

  datatype Listed = Entries(items: seq<Item>) | Unreachable

  /** The cursor names a position in exactly this listing. */
  predicate Fits(cursor: Cursor, sorted: seq<Item>) {
    match cursor
    case NoCursor => true
    case Malformed => false
    case At(offset, fingerprint) =>
      offset >= 0 && fingerprint != "" && fingerprint == Fingerprint(sorted) && offset <= |sorted|
  }

  function Offset(cursor: Cursor): int {
    if cursor.At? then cursor.offset else 0
  }

  /** The reply is the page of `sorted` at the cursor. */
  ghost predicate PageOf(reply: Reply, sorted: seq<Item>, cursor: Cursor, limit: nat)
    requires Fits(cursor, sorted)
  {
    var offset := Offset(cursor);
    if offset + limit < |sorted|
    then reply == Page(sorted[offset..offset + limit], At(offset + limit, Fingerprint(sorted)))
    else reply == Page(sorted[offset..], NoCursor)
  }

  /** The reply to a request for the page at the cursor, whatever way ties were sorted. */
  ghost predicate Answers(reply: Reply, items: seq<Item>, cursor: Cursor, limit: nat) {
    exists sorted :: Sorting(items, sorted) && AnswersFrom(reply, sorted, cursor, limit)
  }

  ghost predicate AnswersFrom(reply: Reply, sorted: seq<Item>, cursor: Cursor, limit: nat) {
    if Fits(cursor, sorted) then PageOf(reply, sorted, cursor, limit) else reply == Changed
  }

  /** listLegacyManager. Callers pass a limit between 1 and the page maximum. */
  method ListLegacy(listed: Listed, cursor: Cursor, limit: nat) returns (reply: Reply)
    requires limit > 0
    ensures reply == ListingFailed <==> listed.Unreachable?
    ensures reply == TooLarge <==> listed.Entries? && |listed.items| > MAX_DIRECTORY_ITEMS
    ensures listed.Entries? && |listed.items| <= MAX_DIRECTORY_ITEMS ==> Answers(reply, listed.items, cursor, limit)
  {
    if listed.Unreachable? {
      return ListingFailed;
    }
    if |listed.items| > MAX_DIRECTORY_ITEMS {
      return TooLarge;
    }
    var items := SortEntries(listed.items);
    var fingerprint := Fingerprint(items);
    var offset := 0;
    if cursor != NoCursor {
      if cursor.Malformed? || cursor.offset < 0 || cursor.fingerprint == "" {
        assert AnswersFrom(Changed, items, cursor, limit);
        return Changed;
      }
      if cursor.fingerprint != fingerprint || cursor.offset > |items| {
        assert AnswersFrom(Changed, items, cursor, limit);
        return Changed;
      }
      offset := cursor.offset;
    }
    var end := offset + limit;
    if end > |items| {
      end := |items|;
    }
    reply := Page(items[offset..end], NoCursor);
    if end < |items| {
      reply := Page(items[offset..end], At(end, fingerprint));
    }
    assert AnswersFrom(reply, items, cursor, limit);
  }

  /** The pages read so far are the first `reached` items, full pages except perhaps the last one. */
  ghost predicate ReadSoFar(pages: seq<seq<Item>>, next: Cursor, sorted: seq<Item>, reached: nat, limit: nat) {
    && reached <= |sorted| && Joined(pages) == sorted[..reached] && |pages| >= 1
    && (forall k :: 0 <= k < |pages| - 1 ==> |pages[k]| == limit)
    && |pages[|pages| - 1]| <= limit && (sorted != [] ==> |pages[|pages| - 1]| > 0)
    && (if reached == |sorted| then next == NoCursor
        else next == At(reached, Fingerprint(sorted)) && |pages[|pages| - 1]| == limit)
  }

  lemma FirstPage(reply: Reply, sorted: seq<Item>, limit: nat)
    requires limit > 0 && PageOf(reply, sorted, NoCursor, limit)
    ensures ReadSoFar([reply.items], reply.next, sorted, |reply.items|, limit)
  {
    assert [reply.items][..0] == [];
    assert Joined([reply.items]) == [] + reply.items == sorted[..|reply.items|];
  }

  lemma AnotherPage(pages: seq<seq<Item>>, next: Cursor, sorted: seq<Item>, reached: nat, limit: nat, reply: Reply)
    requires limit > 0 && ReadSoFar(pages, next, sorted, reached, limit) && next != NoCursor
    requires PageOf(reply, sorted, next, limit)
    ensures ReadSoFar(pages + [reply.items], reply.next, sorted, reached + |reply.items|, limit)
    ensures |reply.items| > 0
  {
    var more := pages + [reply.items];
    assert more[..|pages|] == pages;
    assert sorted[..reached] + reply.items == sorted[..reached + |reply.items|];
  }

  /** An unchanged directory answers from the one sorted listing, whatever order it was listed in. */
  lemma AnswersSame(reply: Reply, order: seq<Item>, sorted: seq<Item>, cursor: Cursor, limit: nat)
    requires Answers(reply, order, cursor, limit) && Ordered(sorted) && multiset(sorted) == multiset(order)
    requires DistinctIdentities(sorted)
    ensures AnswersFrom(reply, sorted, cursor, limit)
  {
    var other :| Sorting(order, other) && AnswersFrom(reply, other, cursor, limit);
    SortingIsUnique(sorted, other);
  }

  /** The pages are the sorted listing cut into full pages, with at most one shorter page at the end. */
  ghost predicate ReadsOff(items: seq<Item>, limit: nat, pages: seq<seq<Item>>) {
    && Sorting(items, Joined(pages)) && |pages| >= 1
    && (forall k :: 0 <= k < |pages| - 1 ==> |pages[k]| == limit)
    && |pages[|pages| - 1]| <= limit && (items != [] ==> |pages[|pages| - 1]| > 0)
  }

  lemma AllRead(items: seq<Item>, limit: nat, pages: seq<seq<Item>>, sorted: seq<Item>, reached: nat)
    requires Sorting(items, sorted) && ReadSoFar(pages, NoCursor, sorted, reached, limit)
    ensures ReadsOff(items, limit, pages)
  {
    SameLength(items, sorted);
    assert sorted[..|sorted|] == sorted;
  }

  /** One more page of an unchanged directory. */
  method ReadMore(order: seq<Item>, next: Cursor, limit: nat, ghost pages: seq<seq<Item>>, ghost sorted: seq<Item>,
                  ghost reached: nat)
    returns (reply: Reply)
    requires limit > 0 && |order| <= MAX_DIRECTORY_ITEMS && next != NoCursor
    requires ReadSoFar(pages, next, sorted, reached, limit)
    requires Ordered(sorted) && multiset(sorted) == multiset(order) && DistinctIdentities(sorted)
    ensures reply.Page? && reply.items != []
    ensures ReadSoFar(pages + [reply.items], reply.next, sorted, reached + |reply.items|, limit)
  {
    reply := ListLegacy(Entries(order), next, limit);
    AnswersSame(reply, order, sorted, next, limit);
    AnotherPage(pages, next, sorted, reached, limit, reply);
  }

  /**
    A client follows the cursors while the directory stays the same, although the provider may list it in a
    different order each time. The pages concatenate to the one sorted listing.
   */
  method ReadAll(items: seq<Item>, orders: nat -> seq<Item>, limit: nat) returns (pages: seq<seq<Item>>)
    requires limit > 0 && |items| <= MAX_DIRECTORY_ITEMS && DistinctIdentities(items)
    requires forall k :: multiset(orders(k)) == multiset(items)
    ensures ReadsOff(items, limit, pages)
  {
    var order := orders(0);
    SameLength(order, items);
    var first := ListLegacy(Entries(order), NoCursor, limit);
    ghost var sorted :| Sorting(order, sorted) && AnswersFrom(first, sorted, NoCursor, limit);
    DistinctPermutation(items, sorted);
    FirstPage(first, sorted, limit);
    pages := [first.items];
    var next := first.next;
    ghost var reached := |first.items|;
    while next != NoCursor
      invariant ReadSoFar(pages, next, sorted, reached, limit)
      decreases |sorted| - reached
    {
      order := orders(|pages|);
      SameLength(order, items);
      var more := ReadMore(order, next, limit, pages, sorted, reached);
      pages := pages + [more.items];
      next := more.next;
      reached := reached + |more.items|;
    }
    AllRead(items, limit, pages, sorted, reached);
  }

  function Joined(pages: seq<seq<Item>>): seq<Item> {
    if pages == [] then [] else Joined(pages[..|pages| - 1]) + pages[|pages| - 1]
  }

  lemma SameLength(s: seq<Item>, t: seq<Item>)
    requires multiset(s) == multiset(t)
    ensures |s| == |t|
  {
    assert |multiset(s)| == |s| && |multiset(t)| == |t|;
  }

  /** Distinct identities survive reordering. */
  lemma DistinctPermutation(s: seq<Item>, t: seq<Item>)
    requires multiset(s) == multiset(t) && DistinctIdentities(s)
    ensures DistinctIdentities(t)
  {
    forall i, j | 0 <= i < j < |t| ensures Identity(t[i].locator) != Identity(t[j].locator) {
      assert t[i] in multiset(s) && t[j] in multiset(s);
      if Identity(t[i].locator) == Identity(t[j].locator) {
        var k :| 0 <= k < |s| && s[k] == t[i];
        var l :| 0 <= l < |s| && s[l] == t[j];
        assert k == l;
        TwiceIn(t, i, j);
        OnceIn(s, k);
        assert false;
      }
    }
  }

  lemma TwiceIn(t: seq<Item>, i: nat, j: nat)
    requires i < j < |t| && t[i] == t[j]
    ensures multiset(t)[t[i]] >= 2
  {
    assert t == t[..j] + [t[j]] + t[j + 1..];
    assert t[i] in t[..j];
    assert multiset(t) == multiset(t[..j]) + multiset{t[j]} + multiset(t[j + 1..]);
  }

  lemma OnceIn(s: seq<Item>, k: nat)
    requires k < |s| && DistinctIdentities(s)
    ensures multiset(s)[s[k]] == 1
  {
    assert s == s[..k] + [s[k]] + s[k + 1..];
    assert s[k] !in s[..k] && s[k] !in s[k + 1..];
    assert multiset(s) == multiset(s[..k]) + multiset{s[k]} + multiset(s[k + 1..]);
  }

  /** A cursor minted for one listing is accepted for another exactly when the listings are the same. */
  lemma CursorAcceptedIffUnchanged(before: seq<Item>, after: seq<Item>, offset: nat)
    requires FingerprintsDistinct() && before in ListingsInPlay && after in ListingsInPlay
    requires offset <= |before|
    ensures Fits(At(offset, Fingerprint(before)), after) <==> before == after
  {
  }

  /** With distinct identities the sorted listing stands for the directory's contents, so any change is noticed. */
  lemma ChangeIsNoticed(before: seq<Item>, after: seq<Item>, sortedBefore: seq<Item>, sortedAfter: seq<Item>,
                        offset: nat)
    requires FingerprintsDistinct() && sortedBefore in ListingsInPlay && sortedAfter in ListingsInPlay
    requires Sorting(before, sortedBefore) && Sorting(after, sortedAfter) && DistinctIdentities(before)
    requires offset <= |before|
    ensures Fits(At(offset, Fingerprint(sortedBefore)), sortedAfter) <==> multiset(before) == multiset(after)
  {
    SameLength(before, sortedBefore);
    if multiset(before) == multiset(after) {
      DistinctPermutation(before, sortedBefore);
      SortingIsUnique(sortedBefore, sortedAfter);
    }
  }
}
