/** Listing one directory for an archive, page by page, from a provider that may answer anything. */
module ArchiveListing {
  import opened Listing
  import opened ArchiveNames
  import opened Pagination

  /** A page with the cursor of the next one; the empty cursor ends the listing. */
  datatype PageReply = PageItems(items: seq<Item>, next: string) | PageError

  /** A provider that pages by itself, or one that can only list whole directories. */
  datatype Lister = Native(page: (Locator, string) -> PageReply) | Whole(list: Locator -> Listed)

  datatype Error = ProviderFailed | DirectoryTooLarge | DirectoryCycle | InvalidName

  datatype Directory = Complete(items: seq<Item>) | Refused(error: Error)

  function PageAfter(lister: Lister, l: Locator, pages: seq<PageReply>): PageReply
    requires lister.Native? && (pages == [] || pages[|pages| - 1].PageItems?)
  {
    lister.page(l, if pages == [] then "" else pages[|pages| - 1].next)
  }

  /** Successive answers of the provider, each asking for the next. */
  ghost predicate Asked(lister: Lister, l: Locator, pages: seq<PageReply>)
    requires lister.Native?
    decreases |pages|
  {
    pages != [] ==>
      var before, last := pages[..|pages| - 1], pages[|pages| - 1];
      && Asked(lister, l, before) && (before == [] || before[|before| - 1].PageItems?)
      && last == PageAfter(lister, l, before) && last.PageItems? && last.next != ""
  }

  function AllItems(pages: seq<PageReply>): seq<Item>
    requires forall i :: 0 <= i < |pages| ==> pages[i].PageItems?
  {
    if pages == [] then [] else AllItems(pages[..|pages| - 1]) + pages[|pages| - 1].items
  }

  ghost predicate NoRepeatedCursor(pages: seq<PageReply>)
    requires forall i :: 0 <= i < |pages| ==> pages[i].PageItems?
  {
    forall i, j :: 0 <= i < j < |pages| ==> pages[i].next != pages[j].next
  }

  lemma {:induction false} AskedPages(lister: Lister, l: Locator, pages: seq<PageReply>)
    requires lister.Native? && Asked(lister, l, pages)
    ensures forall i :: 0 <= i < |pages| ==> pages[i].PageItems? && pages[i].next != ""
    decreases |pages|
  {
    if pages != [] {
      AskedPages(lister, l, pages[..|pages| - 1]);
    }
  }

  /** The provider's complete answer: pages in turn, and a last one without a cursor. */
  ghost predicate Answer(lister: Lister, l: Locator, before: seq<PageReply>, last: PageReply)
    requires lister.Native?
  {
    && Asked(lister, l, before) && (forall i :: 0 <= i < |before| ==> before[i].PageItems?)
    && last == PageAfter(lister, l, before) && last.PageItems? && last.next == ""
  }

  /** An answer the archive accepts: no empty page in the middle, no repeated cursor, at most 10000 items. */
  ghost predicate Acceptable(before: seq<PageReply>, last: PageReply)
    requires last.PageItems? && forall i :: 0 <= i < |before| ==> before[i].PageItems?
  {
    && (forall i :: 0 <= i < |before| ==> before[i].items != [])
    && NoRepeatedCursor(before) && |AllItems(before)| + |last.items| <= MAX_FILES
  }

  /** The items of a directory as the provider presents them. */
  ghost predicate Lists(lister: Lister, l: Locator, items: seq<Item>) {
    match lister
    case Native(_) => exists before, last ::
      Answer(lister, l, before, last) && Acceptable(before, last) && items == AllItems(before) + last.items
    case Whole(list) =>
      list(l).Entries? && |list(l).items| <= MAX_DIRECTORY_ITEMS && multiset(items) == multiset(list(l).items)
  }

  // ---- The provider's answer is determined -----------------------------------------------------

  /** Whatever was asked so far is the beginning of every complete answer. */
  lemma {:induction false} AskedIsPrefix(lister: Lister, l: Locator, asked: seq<PageReply>, before: seq<PageReply>,
                                         last: PageReply)
    requires lister.Native? && Asked(lister, l, asked) && Answer(lister, l, before, last)
    ensures |asked| <= |before| && before[..|asked|] == asked
    decreases |asked|
  {
    if asked != [] {
      var n := |asked| - 1;
      AskedIsPrefix(lister, l, asked[..n], before, last);
      assert before[..|before|] == before;
      if |before| > n {
        AskedAt(lister, l, before, n);
        assert before[..n + 1] == before[..n] + [before[n]];
      }
    }
  }

  lemma {:induction false} AskedAt(lister: Lister, l: Locator, pages: seq<PageReply>, i: nat)
    requires lister.Native? && Asked(lister, l, pages) && i < |pages|
    ensures (i == 0 || pages[i - 1].PageItems?) && pages[i] == PageAfter(lister, l, pages[..i])
    ensures pages[i].PageItems? && pages[i].next != ""
    decreases |pages|
  {
    var n := |pages| - 1;
    if i < n {
      AskedAt(lister, l, pages[..n], i);
      assert pages[..n][..i] == pages[..i];
    }
  }

  lemma {:induction false} FewerItems(pages: seq<PageReply>, n: nat)
    requires n <= |pages| && forall i :: 0 <= i < |pages| ==> pages[i].PageItems?
    ensures |AllItems(pages[..n])| <= |AllItems(pages)|
    decreases |pages|
  {
    if n < |pages| {
      FewerItems(pages[..|pages| - 1], n);
      assert pages[..|pages| - 1][..n] == pages[..n];
    } else {
      assert pages[..n] == pages;
    }
  }

  /** The pages asked so far are fine and the next one is not: no acceptable answer exists. */
  lemma NothingAcceptable(lister: Lister, l: Locator, asked: seq<PageReply>, page: PageReply, before: seq<PageReply>,
                          last: PageReply)
    requires lister.Native? && Asked(lister, l, asked) && (asked == [] || asked[|asked| - 1].PageItems?)
    requires page == PageAfter(lister, l, asked) && Answer(lister, l, before, last)
    requires forall i :: 0 <= i < |asked| ==> asked[i].PageItems?
    requires || page.PageError?
             || (page.items == [] && page.next != "")
             || |AllItems(asked)| + |page.items| > MAX_FILES
             || (page.next != "" && exists i :: 0 <= i < |asked| && asked[i].next == page.next)
    ensures !Acceptable(before, last)
  {
    AskedIsPrefix(lister, l, asked, before, last);
    var n := |asked|;
    if |before| == n {
      assert before == asked;
    } else {
      AskedAt(lister, l, before, n);
      assert before[n] == page;
      assert before[..n + 1][..n] == asked;
      FewerItems(before, n + 1);
      assert |AllItems(before[..n + 1])| == |AllItems(asked)| + |page.items|;
    }
  }

  /** A directory lists one way, up to the order of a whole listing. */
  lemma ListsSame(lister: Lister, l: Locator, a: seq<Item>, b: seq<Item>)
    requires Lists(lister, l, a) && Lists(lister, l, b)
    ensures multiset(a) == multiset(b)
  {
    if lister.Native? {
      var x, p :| Answer(lister, l, x, p) && Acceptable(x, p) && a == AllItems(x) + p.items;
      var y, q :| Answer(lister, l, y, q) && Acceptable(y, q) && b == AllItems(y) + q.items;
      AskedIsPrefix(lister, l, x, y, q);
      AskedIsPrefix(lister, l, y, x, p);
      assert x == y;
    }
  }

  // ---- The loop --------------------------------------------------------------------------------

  /** What the loop's variables say about the pages asked for. */
  ghost predicate Gathered(lister: Lister, l: Locator, asked: seq<PageReply>, items: seq<Item>, cursor: string,
                           seen: set<string>)
    requires lister.Native?
  {
    && Asked(lister, l, asked) && (forall i :: 0 <= i < |asked| ==> asked[i].PageItems? && asked[i].items != [])
    && cursor == (if asked == [] then "" else asked[|asked| - 1].next)
    && items == AllItems(asked) && |items| <= MAX_FILES && NoRepeatedCursor(asked)
    && forall c :: c in seen <==> exists i :: 0 <= i < |asked| && asked[i].next == c
  }

  lemma GatherMore(lister: Lister, l: Locator, asked: seq<PageReply>, items: seq<Item>, cursor: string,
                   seen: set<string>, page: PageReply)
    requires lister.Native? && Gathered(lister, l, asked, items, cursor, seen) && page == lister.page(l, cursor)
    requires page.PageItems? && page.next != "" && page.next !in seen && page.items != []
    requires |items| + |page.items| <= MAX_FILES
    ensures Gathered(lister, l, asked + [page], items + page.items, page.next, seen + {page.next})
  {
    Extended(lister, l, asked, page);
    var more := asked + [page];
    assert forall i :: 0 <= i < |asked| ==> more[i] == asked[i];
    assert more[|asked|] == page;
  }

  /** The paging loop of listArchiveDirectory: ends on every provider because each round adds an item. */
  method ListPages(lister: Lister, l: Locator) returns (r: Directory)
    requires lister.Native?
    ensures r.Complete? <==> exists items :: Lists(lister, l, items)
    ensures r.Complete? ==> Lists(lister, l, r.items) && |r.items| <= MAX_FILES
    ensures r.Refused? ==> r.error == ProviderFailed || r.error == DirectoryTooLarge
  {
    var items: seq<Item> := [];
    var cursor := "";
    var seen: set<string> := {};
    ghost var asked: seq<PageReply> := [];
    while true
      invariant Gathered(lister, l, asked, items, cursor, seen)
      decreases MAX_FILES - |items|
    {
      var page := lister.page(l, cursor);
      if page.PageError? {
        NothingListed(lister, l, asked, page);
        return Refused(ProviderFailed);
      }
      if |page.items| == 0 && page.next != "" {
        NothingListed(lister, l, asked, page);
        return Refused(DirectoryTooLarge);
      }
      if |items| > MAX_FILES - |page.items| {
        NothingListed(lister, l, asked, page);
        return Refused(DirectoryTooLarge);
      }
      items := items + page.items;
      if page.next == "" {
        assert Answer(lister, l, asked, page) && Acceptable(asked, page);
        assert Lists(lister, l, items);
        return Complete(items);
      }
      if page.next in seen {
        NothingListed(lister, l, asked, page);
        return Refused(DirectoryTooLarge);
      }
      GatherMore(lister, l, asked, AllItems(asked), cursor, seen, page);
      seen := seen + {page.next};
      cursor := page.next;
      asked := asked + [page];
    }
  }

  lemma NothingListed(lister: Lister, l: Locator, asked: seq<PageReply>, page: PageReply)
    requires lister.Native? && Asked(lister, l, asked) && (forall i :: 0 <= i < |asked| ==> asked[i].PageItems?)
    requires page == PageAfter(lister, l, asked)
    requires || page.PageError?
             || (page.items == [] && page.next != "")
             || |AllItems(asked)| + |page.items| > MAX_FILES
             || (page.next != "" && exists i :: 0 <= i < |asked| && asked[i].next == page.next)
    ensures !exists items :: Lists(lister, l, items)
  {
    forall before, last | Answer(lister, l, before, last) ensures !Acceptable(before, last) {
      NothingAcceptable(lister, l, asked, page, before, last);
    }
  }

  lemma Extended(lister: Lister, l: Locator, asked: seq<PageReply>, page: PageReply)
    requires lister.Native? && Asked(lister, l, asked) && (forall i :: 0 <= i < |asked| ==> asked[i].PageItems?)
    requires page == PageAfter(lister, l, asked) && page.PageItems? && page.next != ""
    ensures Asked(lister, l, asked + [page]) && AllItems(asked + [page]) == AllItems(asked) + page.items
  {
    assert (asked + [page])[..|asked|] == asked;
  }

  /** listArchiveDirectory; the whole-listing branch never leaves a cursor behind. */
  method ListArchiveDirectory(lister: Lister, l: Locator) returns (r: Directory)
    ensures r.Complete? <==> exists items :: Lists(lister, l, items)
    ensures r.Complete? ==> Lists(lister, l, r.items) && |r.items| <= MAX_FILES
    ensures r.Refused? ==> r.error == ProviderFailed || r.error == DirectoryTooLarge
  {
    if lister.Native? {
      r := ListPages(lister, l);
      return;
    }
    var listed := lister.list(l);
    var reply := ListLegacy(listed, NoCursor, MAX_DIRECTORY_ITEMS);
    match reply
    case ListingFailed =>
      r := Refused(ProviderFailed);
    case TooLarge =>
      r := Refused(DirectoryTooLarge);
    case Changed =>
      assert false;
    case Page(items, next) =>
      ghost var sorted :| Sorting(listed.items, sorted) && AnswersFrom(reply, sorted, NoCursor, MAX_DIRECTORY_ITEMS);
      SameLength(sorted, listed.items);
      assert items == sorted && next == NoCursor;
      assert Lists(lister, l, items);
      r := Complete(items);
  }
}
